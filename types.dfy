/** The storefront's records (types.ts). Only the fields some rule reads or writes are kept. */
module Types {
  import opened Util

  datatype ProductStatus = Draft | Published | Archived

  datatype Product = Product(
    id: string,
    sku: string,
    name: string,
    brand: string,
    description: string,
    price: real,
    oldPrice: Option<real>,
    category: string,
    subCategory: Option<string>,
    image: string,
    images: Option<seq<string>>,
    rating: real,
    reviews: int,
    stock: int,
    isBestSeller: bool,
    status: ProductStatus)

  /** A cart line: the product it was created from and how many units are wanted. */
  datatype CartItem = CartItem(product: Product, quantity: int)

  /** A node of the category tree; a leaf has no children. */
  datatype Category = Category(
    id: string,
    name: string,
    slug: string,
    parentId: Option<string>,
    level: int,
    children: seq<Category>)

  datatype Role = USER | ADMIN | EMPLOYEE | SELLER

  datatype User = User(id: string, name: string, email: string, role: Role)

  datatype OrderStatus = Pending | Processing | Shipped | Delivered | Cancelled

  datatype Order = Order(
    id: string,
    customerName: string,
    customerEmail: string,
    productName: string,
    amount: real,
    status: OrderStatus,
    date: string)

  /** The ids of a list of products, in list order. */
  function ProductIds(ps: seq<Product>): (ids: seq<string>)
    ensures |ids| == |ps|
    ensures forall i :: 0 <= i < |ps| ==> ids[i] == ps[i].id
  {
    seq(|ps|, i requires 0 <= i < |ps| => ps[i].id)
  }

  lemma ProductIdsCons(ps: seq<Product>)
    requires ps != []
    ensures ProductIds(ps) == [ps[0].id] + ProductIds(ps[1..])
  {
  }
}
