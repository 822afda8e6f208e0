/** The values the sales calculator works on: JSON objects as it reads them,
    and the optional and error wrappers used across the model. */
module Records {

  /** Python's `None` against a present value. */
  datatype Option<+T> = None | Some(value: T)

  /** The calculator's one fatal outcome, kept as a value instead of a process exit. */
  datatype Result<+T> = Success(value: T) | Failure(error: string)

  /** `d.get(key, default)` once the key has been looked up. */
  function GetOr<T>(o: Option<T>, default: T): T
  {
    match o
    case Some(v) => v
    case None => default
  }

  /** One JSON object of an input file, restricted to the keys the calculator reads.
      Product records use `nombre` and `precio`, sale records `Producto` and
      `Cantidad`; a key that is missing or holds JSON null is `None`, as `dict.get`
      sees it. `extraKeys` is true when the object holds any key not recorded in
      the other four fields, a read key holding JSON null included, so that a
      record is Python-falsy exactly when it is `{}`. */
  datatype Record = Record(
    nombre: Option<string>,
    precio: Option<int>,
    producto: Option<string>,
    cantidad: Option<int>,
    extraKeys: bool)

  /** A record of a product list (`ListaProductos`). */
  type Product = Record

  /** A record of a sales file. */
  type Sale = Record

  /** The empty dictionary `{}`. */
  const EmptyRecord := Record(None, None, None, None, false)

  /** `not record` in Python: true only of the empty dictionary. */
  predicate IsEmpty(r: Record)
  {
    r == EmptyRecord
  }
}
