/** The client record and its request shapes (src/app/model/cliente.model.ts),
    together with the optional value and the thrown-error value that the
    service and the component pass around. */
module ClienteModel {

  datatype Option<+T> = None | Some(value: T)

  /** A `Date` field, as milliseconds since the epoch. */
  type Timestamp = int

  /** ClienteModel: every field is optional, including the store-assigned id
      and both timestamps. A balance is an integer here. */
  datatype Cliente = Cliente(
    id: Option<string>,
    nombre: Option<string>,
    apellido: Option<string>,
    email: Option<string>,
    saldo: Option<int>,
    fechaCreacion: Option<Timestamp>,
    fechaModificacion: Option<Timestamp>)

  /** ClienteCreateRequest: given and family name are required. */
  datatype ClienteCreateRequest = ClienteCreateRequest(
    nombre: string,
    apellido: string,
    email: Option<string>,
    saldo: Option<int>)

  /** ClienteUpdateRequest: only the id is required. */
  datatype ClienteUpdateRequest = ClienteUpdateRequest(
    id: string,
    nombre: Option<string>,
    apellido: Option<string>,
    email: Option<string>,
    saldo: Option<int>)

  /** ClienteFormData: ClienteModel without id, fechaCreacion and fechaModificacion. */
  datatype ClienteFormData = ClienteFormData(
    nombre: Option<string>,
    apellido: Option<string>,
    email: Option<string>,
    saldo: Option<int>)

  /** ClienteStatus and the string each member stands for. */
  datatype ClienteStatus = Active | Inactive | Suspended

  function StatusValue(s: ClienteStatus): string {
    match s
    case Active => "active"
    case Inactive => "inactive"
    case Suspended => "suspended"
  }

  function ParseStatus(v: string): Option<ClienteStatus> {
    if v == "active" then Some(Active)
    else if v == "inactive" then Some(Inactive)
    else if v == "suspended" then Some(Suspended)
    else None
  }

  /** The three members stand for three distinct strings: reading the string
      back gives the member. */
  lemma StatusRoundTrip(s: ClienteStatus)
    ensures ParseStatus(StatusValue(s)) == Some(s)
  {
  }

  /** A value that is one of the strings names exactly one member. */
  lemma StatusParseRoundTrip(v: string)
    requires ParseStatus(v).Some?
    ensures StatusValue(ParseStatus(v).value) == v
  {
  }

  /** JavaScript truthiness of an optional string: present and not empty. */
  predicate HasText(o: Option<string>) {
    o.Some? && o.value != ""
  }

  /** A create request seen as a record: no id and no timestamps yet; the two
      required names are present and all four data fields are the request's. */
  function FromCreateRequest(r: ClienteCreateRequest): (c: Cliente)
    ensures c.nombre.Some? && c.apellido.Some?
    ensures c.id.None? && c.fechaCreacion.None? && c.fechaModificacion.None?
    ensures FormDataOf(c) == ClienteFormData(Some(r.nombre), Some(r.apellido), r.email, r.saldo)
  {
    Cliente(None, Some(r.nombre), Some(r.apellido), r.email, r.saldo, None, None)
  }

  /** An update request seen as a record: the id is always present, the four
      data fields are the request's, and no timestamp is set. */
  function FromUpdateRequest(r: ClienteUpdateRequest): (c: Cliente)
    ensures c.id == Some(r.id)
    ensures FormDataOf(c) == ClienteFormData(r.nombre, r.apellido, r.email, r.saldo)
    ensures c.fechaCreacion.None? && c.fechaModificacion.None?
  {
    Cliente(Some(r.id), r.nombre, r.apellido, r.email, r.saldo, None, None)
  }

  /** Omit<ClienteModel, 'id' | 'fechaCreacion' | 'fechaModificacion'> */
  function FormDataOf(c: Cliente): ClienteFormData {
    ClienteFormData(c.nombre, c.apellido, c.email, c.saldo)
  }

  /** Form data passed where a ClienteModel is expected (the omitted fields
      are absent). */
  function FromFormData(f: ClienteFormData): Cliente {
    Cliente(None, f.nombre, f.apellido, f.email, f.saldo, None, None)
  }

  /** Form data survives the trip through a record unchanged. */
  lemma FormDataRoundTrip(f: ClienteFormData)
    ensures FormDataOf(FromFormData(f)) == f
  {
  }

  /** Going through form data loses exactly the id and the two timestamps. */
  lemma FormDataOmitsIdAndTimestamps(c: Cliente)
    ensures FromFormData(FormDataOf(c)) == c.(id := None, fechaCreacion := None, fechaModificacion := None)
  {
  }

  /** A thrown value: a plain string (as `throwError('...')` raises), an object
      with an optional `code` and `message` (an `Error`, or a store failure),
      or null/undefined. */
  datatype ErrorValue =
    | StringError(text: string)
    | ObjectError(code: Option<string>, message: Option<string>)
    | NullError

  /** `new Error(message)` */
  function ErrorWith(message: string): ErrorValue {
    ObjectError(None, Some(message))
  }
}
