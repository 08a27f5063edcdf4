/**
 * The records of the point-of-sale document (`state` in script.js): products,
 * customers, cart lines, sales and settings, with the field names the
 * persisted JSON uses. Money is in integer cents and instants are integer
 * milliseconds since the epoch.
 */
module Model {
  import opened Util

  datatype Product = Product(
    id: string,
    codigo: string,
    descripcion: string,
    precioCompra: int,
    precioVenta: int,
    stock: int,
    stockMin: int,
    imagen: string)

  datatype Customer = Customer(id: string, nombre: string, telefono: string)

  /** A staged line; `descripcion` and `precio` are copied from the product when the line is created. */
  datatype CartLine = CartLine(id: string, productoId: string, descripcion: string, precio: int, cantidad: int)

  /** The snapshot of one line kept inside a sale. */
  datatype SaleItem = SaleItem(productoId: string, descripcion: string, precio: int, cantidad: int)

  datatype Sale = Sale(
    id: string,
    fecha: int,
    clienteId: string,
    cajero: string,
    items: seq<SaleItem>,
    total: int,
    entregado: int,
    vuelto: int)

  datatype Settings = Settings(storeName: string, cajeros: seq<string>)

  /** A parsed stored document: each top-level key may be missing. */
  datatype Document = Document(
    productos: Option<seq<Product>>,
    clientes: Option<seq<Customer>>,
    ventas: Option<seq<Sale>>,
    settings: Option<Settings>,
    cart: Option<seq<CartLine>>)

  /** The alerts with which the handlers abandon an operation. */
  datatype PosError =
    | EmptyCart                              // 'Carrito vacío'
    | NoProductChosen                        // 'Elegí un producto (de la lista)'
    | NotEnoughStock                         // 'No hay suficiente stock'
    | InsufficientStockFor(descripcion: string)  // 'Stock insuficiente para ...'
    | LineNotFound                           // a quantity edit for a line that is not in the cart

  datatype Result<T> = Ok(value: T) | Err(error: PosError)

  datatype Outcome = Done | Fail(error: PosError)

  const DefaultStoreName: string := "Mi Almacén"
  const DefaultCashier: string := "Caja 1"
}
