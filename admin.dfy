/**
 * The admin dashboard's catalog tools (pages/AdminDashboard.tsx): the stock indicator of the
 * product table and the two-step "Quick Catalog Entry" wizard that puts a new product at the
 * head of the dashboard's product list.
 */
module Admin {
  import opened Util
  import opened Types
  import Catalog

  // ------------------------------------------------------------------ the product table

  /** The stock dot is green above 10 units and amber otherwise. */
  function StockDotClass(p: Product): (c: string)
    ensures c == "bg-green-500" <==> p.stock > 10
    ensures c != "bg-green-500" ==> c == "bg-amber-500"
  {
    if p.stock > 10 then "bg-green-500" else "bg-amber-500"
  }

  // ------------------------------------------------------------------ the new-product form

  /** The fields of the new-product form (a partial product). */
  datatype ProductForm = ProductForm(
    name: string,
    sku: string,
    brand: string,
    category: string,
    price: real,
    stock: int,
    status: ProductStatus,
    image: string,
    description: string)

  const FormImage: string := "https://images.unsplash.com/photo-1523275335684-37898b6baf30?w=800&q=80"

  /** The form as the dashboard first shows it. */
  const InitialForm: ProductForm := ProductForm("", "", "", "Electronics", 0.0, 0, Draft, FormImage, "")

  /**
   * The product the form launches: its fields, an id supplied by the caller (the page takes
   * the clock), a rating of 5 and no reviews; fields the form has no input for stay unset.
   */
  function LaunchedProduct(form: ProductForm, id: string): (p: Product)
    ensures p.id == id && p.rating == 5.0 && p.reviews == 0
    ensures p.name == form.name && p.sku == form.sku && p.brand == form.brand
    ensures p.category == form.category && p.price == form.price && p.stock == form.stock
    ensures p.status == form.status && p.image == form.image && p.description == form.description
    ensures p.oldPrice == None && p.subCategory == None && p.images == None && !p.isBestSeller
  {
    Product(id, form.sku, form.name, form.brand, form.description, form.price, None,
      form.category, None, form.image, None, 5.0, 0, form.stock, false, form.status)
  }

  /** The dashboard's product list after a launch: the new product first, then the old list. */
  function CatalogAfterSave(products: seq<Product>, form: ProductForm, id: string): (r: seq<Product>)
    ensures |r| == |products| + 1
    ensures r[0] == LaunchedProduct(form, id)
    ensures r[1..] == products
  {
    [LaunchedProduct(form, id)] + products
  }

  /** A launch adds the new id in front and keeps every earlier id, in order. */
  lemma SaveKeepsIds(products: seq<Product>, form: ProductForm, id: string)
    ensures ProductIds(CatalogAfterSave(products, form, id)) == [id] + ProductIds(products)
  {
    ProductIdsCons(CatalogAfterSave(products, form, id));
  }

  // ------------------------------------------------------------------ the wizard

  /** Whether the modal is open, and which of its two steps it shows. */
  datatype Wizard = Wizard(open: bool, step: int)

  /** The modal's controls: the 'New Product' button, the close controls and the step buttons. */
  datatype WizardAction = OpenModal | CloseModal | ReviewAndLaunch | EditMore | GoLive

  /** The wizard after a control is used; `None` when that control is not on screen. */
  function WizardAfter(w: Wizard, a: WizardAction): (r: Option<Wizard>)
    ensures a == GoLive ==> (r.Some? <==> w.open && w.step == 2)
    ensures r.Some? && a == GoLive ==> r.value == Wizard(false, 1)
  {
    match a
    case OpenModal => if w.open then None else Some(Wizard(true, w.step))
    case CloseModal => if w.open then Some(Wizard(false, w.step)) else None
    case ReviewAndLaunch => if w.open && w.step == 1 then Some(Wizard(true, 2)) else None
    case EditMore => if w.open && w.step == 2 then Some(Wizard(true, 1)) else None
    case GoLive => if w.open && w.step == 2 then Some(Wizard(false, 1)) else None
  }

  /** The wizard after the controls are used in turn, stopping at the first one not on screen. */
  function WizardAfterAll(w: Wizard, actions: seq<WizardAction>): Wizard
    decreases |actions|
  {
    if actions == [] then w
    else match WizardAfter(w, actions[0])
      case None => w
      case Some(next) => WizardAfterAll(next, actions[1..])
  }

  /** From step 1 or 2, the wizard never shows any other step. */
  lemma {:induction false} WizardStepsInRange(w: Wizard, actions: seq<WizardAction>)
    requires w.step == 1 || w.step == 2
    ensures var r := WizardAfterAll(w, actions); r.step == 1 || r.step == 2
    decreases |actions|
  {
    if actions != [] {
      match WizardAfter(w, actions[0])
      case None =>
      case Some(next) => WizardStepsInRange(next, actions[1..]);
    }
  }

  /** A closed modal at step 1 needs 'New Product' and 'Review & Launch' before 'Go Live'. */
  lemma GoLivePath()
    ensures WizardAfter(Wizard(false, 1), GoLive).None?
    ensures WizardAfter(Wizard(true, 1), GoLive).None?
    ensures WizardAfterAll(Wizard(false, 1), [OpenModal, ReviewAndLaunch, GoLive]) == Wizard(false, 1)
  {
    assert WizardAfter(Wizard(false, 1), OpenModal) == Some(Wizard(true, 1));
    assert WizardAfter(Wizard(true, 1), ReviewAndLaunch) == Some(Wizard(true, 2));
    assert [OpenModal, ReviewAndLaunch, GoLive][1..] == [ReviewAndLaunch, GoLive];
    assert [ReviewAndLaunch, GoLive][1..] == [GoLive];
  }

  /** The two AI services the form can ask for; only the description one changes the form. */
  datatype AIService = Desc | Seo

  const NameMissing: string := "Enter product name first"

  class AdminDashboard {
    var products: seq<Product>
    var showAddProduct: bool
    var formStep: int
    var isGenerating: bool
    var form: ProductForm
    /** The last browser alert raised by the page, if any. */
    var alert: Option<string>

    ghost predicate Valid()
      reads this
    {
      formStep == 1 || formStep == 2
    }

    constructor ()
      ensures Valid() && products == Catalog.MockProducts
      ensures !showAddProduct && formStep == 1 && !isGenerating && form == InitialForm && alert == None
    {
      products := Catalog.MockProducts;
      showAddProduct := false;
      formStep := 1;
      isGenerating := false;
      form := InitialForm;
      alert := None;
    }

    /** 'New Product' opens the modal on whatever step it was left at. */
    method OpenAddProduct()
      requires Valid() && !showAddProduct
      modifies this`showAddProduct
      ensures Some(Wizard(showAddProduct, formStep)) == WizardAfter(Wizard(old(showAddProduct), formStep), OpenModal)
      ensures showAddProduct && Valid()
    {
      showAddProduct := true;
    }

    /** The backdrop and the close button hide the modal and keep the step. */
    method CloseAddProduct()
      requires Valid() && showAddProduct
      modifies this`showAddProduct
      ensures Some(Wizard(showAddProduct, formStep)) == WizardAfter(Wizard(old(showAddProduct), formStep), CloseModal)
      ensures !showAddProduct && Valid()
    {
      showAddProduct := false;
    }

    method ReviewAndLaunchStep()
      requires Valid() && showAddProduct && formStep == 1
      modifies this`formStep
      ensures Some(Wizard(showAddProduct, formStep)) == WizardAfter(Wizard(showAddProduct, old(formStep)), ReviewAndLaunch)
      ensures formStep == 2 && Valid()
    {
      formStep := 2;
    }

    method EditMoreStep()
      requires Valid() && showAddProduct && formStep == 2
      modifies this`formStep
      ensures Some(Wizard(showAddProduct, formStep)) == WizardAfter(Wizard(showAddProduct, old(formStep)), EditMore)
      ensures formStep == 1 && Valid()
    {
      formStep := 1;
    }

    method EditName(name: string)
      modifies this`form
      ensures form == old(form).(name := name)
    {
      form := form.(name := name);
    }

    method EditDescription(description: string)
      modifies this`form
      ensures form == old(form).(description := description)
    {
      form := form.(description := description);
    }

    /**
     * 'Go Live': the launched product goes first, the modal closes and the wizard returns to
     * step 1; the form keeps what was entered.
     */
    method SaveProduct(nowId: string)
      requires Valid() && showAddProduct && formStep == 2
      modifies this`products, this`showAddProduct, this`formStep
      ensures products == CatalogAfterSave(old(products), form, nowId)
      ensures Some(Wizard(showAddProduct, formStep)) == WizardAfter(Wizard(old(showAddProduct), old(formStep)), GoLive)
      ensures !showAddProduct && formStep == 1 && Valid()
      ensures form == old(form)
    {
      products := [LaunchedProduct(form, nowId)] + products;
      showAddProduct := false;
      formStep := 1;
    }

    /**
     * The synchronous start of an AI-assist request. With no name entered it only raises the
     * alert and nothing starts. Otherwise generation is switched on, which disables the
     * "Generate Copy" button and shows "Drafting..." until `FinishAIService`; the form is
     * untouched.
     */
    method BeginAIService(service: AIService) returns (started: bool)
      modifies this`isGenerating, this`alert
      ensures started <==> form.name != ""
      ensures !started ==> alert == Some(NameMissing) && isGenerating == old(isGenerating)
      ensures started ==> isGenerating && alert == old(alert)
    {
      if form.name == "" {
        alert := Some(NameMissing);
        return false;
      }
      isGenerating := true;
      started := true;
    }

    /**
     * The end of the request, after the await. The reply is merged into the form as it is NOW,
     * so edits made while the request ran survive and only the description is replaced; `reply`
     * is whatever the service handed back (its own fallback text when generation failed). A
     * SEO request leaves the form alone. Generation is switched off either way.
     */
    method FinishAIService(service: AIService, reply: string)
      requires isGenerating
      modifies this`isGenerating, this`form
      ensures !isGenerating
      ensures service == Desc ==> form == old(form).(description := reply)
      ensures service == Desc ==> form.name == old(form.name) && form.price == old(form.price)
      ensures service == Seo ==> form == old(form)
    {
      if service == Desc {
        form := form.(description := reply);
      }
      isGenerating := false;
    }

    /**
     * A whole AI-assist request answered before any further edit: the begin step, then, when it
     * started, the finish step with the service's reply.
     */
    method HandleAIService(service: AIService, reply: string)
      modifies this`isGenerating, this`form, this`alert
      ensures old(form.name) == "" ==>
        alert == Some(NameMissing) && isGenerating == old(isGenerating) && form == old(form)
      ensures old(form.name) != "" ==> !isGenerating && alert == old(alert)
      ensures old(form.name) != "" && service == Desc ==> form == old(form).(description := reply)
      ensures old(form.name) != "" && service == Seo ==> form == old(form)
    {
      var started := BeginAIService(service);
      if started {
        FinishAIService(service, reply);
      }
    }
  }
}
