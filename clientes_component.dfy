/** The client list page (src/app/componentes/clientes/clientes.component.ts):
    the row keys, the search box and its filter, the validation message, the
    messages shown to the user, and the submit and delete handlers that drive
    ClienteService.

    Flash messages are returned as Flash values; the answer of the browser's
    confirm() dialog is a parameter; the store's reply is passed through to the
    service as it is there. */
module Component {
  import opened JsBuiltins
  import opened ClienteModel
  import opened ServiceRules
  import opened Service

  // ---------------------------------------------------------------- row keys

  /** trackByClientId: `cliente.id || index.toString()`. */
  function TrackByClientId(index: nat, c: Cliente): (r: string)
    ensures HasText(c.id) ==> r == c.id.value
    ensures !HasText(c.id) ==> r != [] && (forall k :: 0 <= k < |r| ==> IsDigit(r[k])) && DecimalValue(r) == index
    ensures !HasText(c.id) ==> (r[0] == '0' ==> r == "0")
  {
    if HasText(c.id) then c.id.value
    else
      DecimalRoundTrip(index);
      NatToString(index)
  }

  /** Rows without an id get distinct keys, one per position. */
  lemma TrackByKeysDistinct(i: nat, j: nat, a: Cliente, b: Cliente)
    requires i != j && !HasText(a.id) && !HasText(b.id)
    ensures TrackByClientId(i, a) != TrackByClientId(j, b)
  {
  }

  /** The id '123' at position 0 is the key '123'; no id at position 5 is '5'. */
  lemma TrackByExamples(a: Cliente, b: Cliente)
    requires a.id == Some("123") && b.id.None?
    ensures TrackByClientId(0, a) == "123"
    ensures TrackByClientId(5, b) == "5"
  {
  }

  // ---------------------------------------------------------------- search

  /** `cliente.saldo?.toString().includes(term)`: a balance of 0 is "0" and can
      match; only an absent balance never matches. */
  predicate SaldoIncludes(saldo: Option<int>, lowered: string) {
    saldo.Some? && Includes(IntToString(saldo.value), lowered)
  }

  /** The predicate of the `filter` in filterClients, for the lowered term. */
  predicate ComponentMatches(c: Cliente, lowered: string) {
    SearchMatches(c, lowered) || SaldoIncludes(c.saldo, lowered)
  }

  /** filterClients */
  function FilterClients(clients: seq<Cliente>, searchTerm: string): seq<Cliente> {
    var term := ToLower(searchTerm);
    Filter(clients, c => ComponentMatches(c, term))
  }

  /** The `map` of filteredClients$: an empty term shows the list as it is. */
  function FilteredClients(clients: seq<Cliente>, searchTerm: string): (r: seq<Cliente>)
    ensures searchTerm == "" ==> r == clients
    ensures searchTerm != "" ==> r == FilterClients(clients, searchTerm)
  {
    if searchTerm == "" then clients else FilterClients(clients, searchTerm)
  }

  /** A record is shown exactly when its lowered name, surname or e-mail, or
      its balance written in decimal, contains the lowered term. */
  lemma FilterClientsMembers(clients: seq<Cliente>, searchTerm: string, c: Cliente)
    ensures c in FilterClients(clients, searchTerm) <==> c in clients && ComponentMatches(c, ToLower(searchTerm))
  {
    var term := ToLower(searchTerm);
    FilterMembers(clients, c => ComponentMatches(c, term), c);
  }

  /** The filter keeps the original order. */
  lemma FilterClientsKeepsOrder(a: seq<Cliente>, b: seq<Cliente>, searchTerm: string)
    ensures FilterClients(a + b, searchTerm) == FilterClients(a, searchTerm) + FilterClients(b, searchTerm)
  {
    var term := ToLower(searchTerm);
    FilterAppend(a, b, c => ComponentMatches(c, term));
  }

  /** Everything the service's searchClients finds, the page's filter shows. */
  lemma FilterClientsWidensServiceSearch(clients: seq<Cliente>, searchTerm: string, c: Cliente)
    requires c in SearchFilter(clients, searchTerm)
    ensures c in FilterClients(clients, searchTerm)
  {
    SearchFilterMembers(clients, searchTerm, c);
    FilterClientsMembers(clients, searchTerm, c);
  }

  /** The decimal string of an integer has no letters, so lower-casing it
      changes nothing. */
  lemma LowerIntString(i: int)
    ensures ToLower(IntToString(i)) == IntToString(i)
  {
    var r := IntToString(i);
    forall k | 0 <= k < |r| ensures LowerChar(r[k]) == r[k] {
      if i >= 0 {
        assert IsDigit(NatToString(i)[k]);
      } else if k > 0 {
        assert r[k] == r[1..][k - 1];
      }
    }
  }

  /** Typing a record's balance finds it, whatever its names. */
  lemma FilterClientsFindsBalance(clients: seq<Cliente>, c: Cliente)
    requires c in clients && c.saldo.Some?
    ensures c in FilterClients(clients, IntToString(c.saldo.value))
  {
    var t := IntToString(c.saldo.value);
    LowerIntString(c.saldo.value);
    IncludesSelf(t);
    FilterClientsMembers(clients, t, c);
  }

  /** A text field with no decimal digit in it. */
  predicate NoDigits(field: Option<string>) {
    field.None? || forall k :: 0 <= k < |field.value| ==> !IsDigit(field.value[k])
  }

  /** A field with no digit never contains a term that has one, at any
      position p. */
  lemma NoDigitFieldMissesNumber(field: Option<string>, t: string, p: nat)
    requires NoDigits(field) && p < |t| && IsDigit(t[p])
    ensures !FieldIncludes(field, t)
  {
    if field.Some? {
      var low := ToLower(field.value);
      assert forall i :: 0 <= i < |low| ==> !IsDigit(low[i]);
      forall i | 0 <= i && i + |t| <= |low| ensures !OccursAt(low, t, i) {
        assert low[i..i + |t|][p] == low[i + p];
      }
    }
  }

  /** The balance is searched by the page and not by the service: a record
      whose names and e-mail hold no digit, searched for by its balance, is
      missed by searchClients and shown by the page. */
  lemma BalanceOnlyPageMatch(clients: seq<Cliente>, c: Cliente)
    requires c in clients && NoDigits(c.nombre) && NoDigits(c.apellido) && NoDigits(c.email)
    requires c.saldo.Some?
    ensures c !in SearchFilter(clients, IntToString(c.saldo.value))
    ensures c in FilterClients(clients, IntToString(c.saldo.value))
  {
    var t := IntToString(c.saldo.value);
    // the first digit: after the '-' of a negative balance
    var p := if c.saldo.value >= 0 then 0 else 1;
    if c.saldo.value < 0 {
      assert t[1] == t[1..][0];
    }
    LowerIntString(c.saldo.value);
    NoDigitFieldMissesNumber(c.nombre, t, p);
    NoDigitFieldMissesNumber(c.apellido, t, p);
    NoDigitFieldMissesNumber(c.email, t, p);
    SearchFilterMembers(clients, t, c);
    FilterClientsFindsBalance(clients, c);
  }

  /** The search box forwards trimmed terms, so a blank one shows every record. */
  lemma BlankSearchShowsAll(clients: seq<Cliente>, typed: string)
    requires AllWhitespace(typed)
    ensures FilteredClients(clients, Trim(typed)) == clients
  {
    TrimEmptyIffAllWhitespace(typed);
  }

  // ---------------------------------------------------------------- messages

  /** A message handed to the flash-message service. */
  datatype Flash = Flash(message: string, cssClass: string, timeout: nat)

  /** showSuccessMessage */
  function SuccessFlash(message: string): Flash {
    Flash(message, "alert-success", 3000)
  }

  /** showErrorMessage */
  function ErrorFlash(message: string): Flash {
    Flash(message, "alert-danger", 5000)
  }

  const AGREGADO := "Cliente agregado exitosamente"
  const ELIMINADO := "Cliente eliminado exitosamente"

  /** The component's own getErrorMessage: a thrown string as it is, else the
      error's message when it is not empty, else the generic text. The code of
      a store failure is not consulted. */
  function UserErrorMessage(e: ErrorValue): (r: string)
    ensures e.StringError? ==> r == e.text
    ensures e.ObjectError? && HasText(e.message) ==> r == e.message.value
    ensures !e.StringError? && !(e.ObjectError? && HasText(e.message)) ==> r == INESPERADO
    ensures !e.StringError? ==> r != ""
  {
    match e
    case StringError(text) => text
    case ObjectError(_, message) => if HasText(message) then message.value else INESPERADO
    case NullError => INESPERADO
  }

  /** What a failed write shows the user: for an error the service raised
      itself (a validation or missing-id message), the same text the service
      put in its error slot. */
  lemma OwnErrorsShownAsInSlot(m: string)
    requires m != ""
    ensures UserErrorMessage(ErrorWith(m)) == ServiceRules.GetErrorMessage(ErrorWith(m)) == m
  {
    ErrorMessagePassesThrough(m);
  }

  /** A store failure with a code is shown by its raw message, while the
      service's error slot holds the fixed text for that code. */
  lemma StoreFailureShownByMessage(m: string)
    requires m != ""
    ensures UserErrorMessage(ObjectError(Some("permission-denied"), Some(m))) == m
    ensures ServiceRules.GetErrorMessage(ObjectError(Some("permission-denied"), Some(m))) == PERMISO_DENEGADO
  {
  }

  // ---------------------------------------------------------------- the form

  /** The parts of an NgForm the page reads: whether it is valid, and for each
      control present whether it is invalid. */
  datatype NgForm = NgForm(valid: bool, controls: map<string, bool>)

  /** `form.controls[name]?.invalid`: a missing control is not invalid. */
  predicate ControlInvalid(form: NgForm, name: string) {
    name in form.controls && form.controls[name]
  }

  /** The controls showValidationErrors consults, in order, with the message
      for each. */
  const CONTROL_MESSAGES: seq<(string, string)> := [
    ("nombre", "El nombre es requerido"),
    ("apellido", "El apellido es requerido"),
    ("email", "El email no tiene un formato válido"),
    ("saldo", "El saldo debe ser un número válido")]

  const ERRORES_PREFIX := "Por favor corrige los siguientes errores: "
  const LLENA_FORMULARIO := "Por favor llena el formulario correctamente"

  /** The messages of the invalid controls among `checks`, in their order. */
  function InvalidControlMessages(form: NgForm, checks: seq<(string, string)>): (r: seq<string>)
    ensures |r| <= |checks|
  {
    if checks == [] then []
    else (if ControlInvalid(form, checks[0].0) then [checks[0].1] else []) + InvalidControlMessages(form, checks[1..])
  }

  /** A message is listed exactly when some check for an invalid control
      carries it. */
  lemma {:induction false} InvalidControlMessagesMembers(form: NgForm, checks: seq<(string, string)>, m: string)
    ensures m in InvalidControlMessages(form, checks) <==>
      exists k :: 0 <= k < |checks| && checks[k].1 == m && ControlInvalid(form, checks[k].0)
    decreases |checks|
  {
    if checks != [] {
      InvalidControlMessagesMembers(form, checks[1..], m);
      assert forall k :: 0 < k < |checks| ==> checks[k] == checks[1..][k - 1];
      if m in InvalidControlMessages(form, checks[1..]) {
        var k :| 0 <= k < |checks[1..]| && checks[1..][k].1 == m && ControlInvalid(form, checks[1..][k].0);
        assert checks[k + 1] == checks[1..][k];
      }
    }
  }

  /** `[message]` when the control is invalid, else nothing. */
  function MessageIf(form: NgForm, name: string, message: string): seq<string> {
    if ControlInvalid(form, name) then [message] else []
  }

  /** The table read in its fixed order: nombre, apellido, email, saldo. */
  lemma ControlMessagesInOrder(form: NgForm)
    ensures InvalidControlMessages(form, CONTROL_MESSAGES) ==
      MessageIf(form, "nombre", "El nombre es requerido") + MessageIf(form, "apellido", "El apellido es requerido")
      + MessageIf(form, "email", "El email no tiene un formato válido") + MessageIf(form, "saldo", "El saldo debe ser un número válido")
  {
    var c := CONTROL_MESSAGES;
    assert c[1..][1..][1..][1..] == [];
    assert InvalidControlMessages(form, c[1..][1..][1..]) == MessageIf(form, "saldo", "El saldo debe ser un número válido");
    assert InvalidControlMessages(form, c[1..][1..]) == MessageIf(form, "email", "El email no tiene un formato válido")
      + MessageIf(form, "saldo", "El saldo debe ser un número válido");
    assert InvalidControlMessages(form, c[1..]) == MessageIf(form, "apellido", "El apellido es requerido")
      + MessageIf(form, "email", "El email no tiene un formato válido") + MessageIf(form, "saldo", "El saldo debe ser un número válido");
  }

  /** The message showValidationErrors shows. */
  function ValidationMessage(form: NgForm): string {
    var errors := InvalidControlMessages(form, CONTROL_MESSAGES);
    if |errors| > 0 then ERRORES_PREFIX + Join(errors, ", ") else LLENA_FORMULARIO
  }

  /** Each control's message is listed exactly when that control is invalid;
      the generic text is shown exactly when none is. */
  lemma ValidationMessageLists(form: NgForm, k: nat)
    requires k < |CONTROL_MESSAGES|
    ensures CONTROL_MESSAGES[k].1 in InvalidControlMessages(form, CONTROL_MESSAGES) <==> ControlInvalid(form, CONTROL_MESSAGES[k].0)
    ensures ValidationMessage(form) == LLENA_FORMULARIO <==>
      forall j :: 0 <= j < |CONTROL_MESSAGES| ==> !ControlInvalid(form, CONTROL_MESSAGES[j].0)
  {
    InvalidControlMessagesMembers(form, CONTROL_MESSAGES, CONTROL_MESSAGES[k].1);
    var errors := InvalidControlMessages(form, CONTROL_MESSAGES);
    if |errors| > 0 {
      assert (ERRORES_PREFIX + Join(errors, ", "))[10] != LLENA_FORMULARIO[10];
      InvalidControlMessagesMembers(form, CONTROL_MESSAGES, errors[0]);
    } else {
      forall j | 0 <= j < |CONTROL_MESSAGES| ensures !ControlInvalid(form, CONTROL_MESSAGES[j].0) {
        InvalidControlMessagesMembers(form, CONTROL_MESSAGES, CONTROL_MESSAGES[j].1);
      }
    }
  }

  /** Only the name invalid: the prefix and the name's message alone. */
  lemma ValidationMessageNameOnly(form: NgForm)
    requires ControlInvalid(form, "nombre")
    requires !ControlInvalid(form, "apellido") && !ControlInvalid(form, "email") && !ControlInvalid(form, "saldo")
    ensures ValidationMessage(form) == ERRORES_PREFIX + "El nombre es requerido"
  {
    ControlMessagesInOrder(form);
  }

  /** Every control invalid: all four messages, in the fixed order, each
      pair separated by ', '. */
  lemma ValidationMessageAllInvalid(form: NgForm)
    requires ControlInvalid(form, "nombre") && ControlInvalid(form, "apellido")
    requires ControlInvalid(form, "email") && ControlInvalid(form, "saldo")
    ensures ValidationMessage(form) == ERRORES_PREFIX + ("El nombre es requerido" + ", " + "El apellido es requerido"
      + ", " + "El email no tiene un formato válido" + ", " + "El saldo debe ser un número válido")
  {
    ControlMessagesInOrder(form);
    var a, b, c, d := "El nombre es requerido", "El apellido es requerido", "El email no tiene un formato válido", "El saldo debe ser un número válido";
    assert InvalidControlMessages(form, CONTROL_MESSAGES) == [a, b, c, d];
    JoinFour(a, b, c, d, ", ");
  }

  /** Four parts joined: each neighbouring pair separated once. */
  lemma JoinFour(a: string, b: string, c: string, d: string, sep: string)
    ensures Join([a, b, c, d], sep) == a + sep + b + sep + c + sep + d
  {
    assert [a, b, c, d][1..] == [b, c, d] && [b, c, d][1..] == [c, d] && [c, d][1..] == [d];
    assert Join([c, d], sep) == c + sep + d;
    assert Join([b, c, d], sep) == b + sep + (c + sep + d);
  }

  /** The record resetForm puts back, and the one the page starts with. */
  const EMPTY_FORM := ClienteFormData(Some(""), Some(""), Some(""), Some(0))

  /** The empty form is refused by the service for its missing name, and its
      empty e-mail and zero balance are not what refuses it. */
  lemma EmptyFormRefusedForName()
    ensures ValidateClientData(FromFormData(EMPTY_FORM)) == Some(NOMBRE_REQUERIDO)
    ensures !EmailRejected(FromFormData(EMPTY_FORM)) && !SaldoRejected(FromFormData(EMPTY_FORM))
  {
  }

  /** `¿Estás seguro de eliminar a ${nombre} ${apellido}?`, an absent field
      printed as 'undefined'. */
  function ConfirmPrompt(c: Cliente): string {
    "¿Estás seguro de eliminar a " + Interpolated(c.nombre) + " " + Interpolated(c.apellido) + "?"
  }

  /** A possibly absent string inside a template literal. */
  function Interpolated(o: Option<string>): string {
    if o.Some? then o.value else "undefined"
  }

  // ---------------------------------------------------------------- the class

  class ClientesComponent {
    const service: ClienteService
    /** The list and the total the template shows. */
    const clients: Handle
    const saldoTotal: TotalStream
    var isSubmitting: bool
    var clienteFormData: ClienteFormData
    /** The latest value of the search subject. */
    var searchSubject: string

    /** The service the page drives keeps its cache invariant. */
    ghost predicate Valid()
      reads service
    {
      service.Valid()
    }

    /** The constructor with initializeObservables: the list and the total are
        taken from the service at `now`, the total reusing the list's
        subscription. */
    constructor (service: ClienteService, now: Timestamp)
      requires service.Valid()
      modifies service
      ensures this.service == service && Valid()
      ensures service.State() == GetClientsStep(old(service.State()), now).state
      ensures clients == GetClientsStep(old(service.State()), now).handle && saldoTotal == TotalOf(clients)
      ensures !isSubmitting && clienteFormData == EMPTY_FORM && searchSubject == ""
    {
      this.service := service;
      var h := service.GetClients(now);
      var t := service.GetSaldoTotal(now);
      clients := h;
      saldoTotal := t;
      isSubmitting := false;
      clienteFormData := EMPTY_FORM;
      searchSubject := "";
    }

    /** onSearchChange */
    method OnSearchChange(searchTerm: string)
      modifies this
      ensures searchSubject == Trim(searchTerm)
      ensures unchanged(this`isSubmitting, this`clienteFormData)
    {
      searchSubject := Trim(searchTerm);
    }

    /** resetForm, without the form reference's own reset. */
    method ResetForm()
      modifies this
      ensures clienteFormData == EMPTY_FORM
      ensures isSubmitting == old(isSubmitting) && searchSubject == old(searchSubject)
    {
      clienteFormData := EMPTY_FORM;
    }

    /** showValidationErrors */
    method ShowValidationErrors(form: NgForm) returns (flash: Flash)
      ensures flash == ErrorFlash(ValidationMessage(form))
    {
      var errors: seq<string> := [];
      if ControlInvalid(form, "nombre") {
        errors := errors + ["El nombre es requerido"];
      }
      assert errors == MessageIf(form, "nombre", "El nombre es requerido");
      if ControlInvalid(form, "apellido") {
        errors := errors + ["El apellido es requerido"];
      }
      assert errors == MessageIf(form, "nombre", "El nombre es requerido") + MessageIf(form, "apellido", "El apellido es requerido");
      if ControlInvalid(form, "email") {
        errors := errors + ["El email no tiene un formato válido"];
      }
      assert errors == MessageIf(form, "nombre", "El nombre es requerido") + MessageIf(form, "apellido", "El apellido es requerido")
        + MessageIf(form, "email", "El email no tiene un formato válido");
      if ControlInvalid(form, "saldo") {
        errors := errors + ["El saldo debe ser un número válido"];
      }
      assert errors == MessageIf(form, "nombre", "El nombre es requerido") + MessageIf(form, "apellido", "El apellido es requerido")
        + MessageIf(form, "email", "El email no tiene un formato válido") + MessageIf(form, "saldo", "El saldo debe ser un número válido");
      ControlMessagesInOrder(form);
      var message := if |errors| > 0 then ERRORES_PREFIX + Join(errors, ", ") else LLENA_FORMULARIO;
      flash := ErrorFlash(message);
    }

    /** onSubmitClient up to its `await`: an invalid form shows the validation
        message and stops; a valid one raises isSubmitting, which is therefore
        true while the service's addClient runs. */
    method StartSubmit(form: NgForm) returns (proceed: bool, flash: Option<Flash>)
      modifies this
      ensures proceed == form.valid
      ensures !form.valid ==> flash == Some(ErrorFlash(ValidationMessage(form))) && isSubmitting == old(isSubmitting)
      ensures form.valid ==> flash.None? && isSubmitting
      ensures clienteFormData == old(clienteFormData) && searchSubject == old(searchSubject)
    {
      if !form.valid {
        var f := ShowValidationErrors(form);
        return false, Some(f);
      }
      proceed, flash := true, None;
      isSubmitting := true;
    }

    /** onSubmitClient after its `await`: success announces the new record and
        empties the form; a failure shows its message; isSubmitting goes down
        either way. */
    method FinishSubmit(result: WriteResult) returns (flash: Flash)
      modifies this
      ensures !isSubmitting && searchSubject == old(searchSubject)
      ensures result.Done? ==> flash == SuccessFlash(AGREGADO) && clienteFormData == EMPTY_FORM
      ensures result.Thrown? ==> flash == ErrorFlash(UserErrorMessage(result.error)) && clienteFormData == old(clienteFormData)
    {
      if result.Done? {
        flash := SuccessFlash(AGREGADO);
        ResetForm();
      } else {
        flash := ErrorFlash(UserErrorMessage(result.error));
      }
      isSubmitting := false;
    }

    /** onSubmitClient: an invalid form never reaches the service; a valid one
        hands the form data to addClient and reports how that ended. */
    method OnSubmitClient(form: NgForm, now: Timestamp, reply: StoreReply) returns (flash: Flash, call: Option<StoreCall>)
      modifies this, service
      requires Valid()
      ensures Valid()
      ensures !form.valid ==>
        flash == ErrorFlash(ValidationMessage(form)) && call.None?
        && service.State() == old(service.State()) && isSubmitting == old(isSubmitting)
        && clienteFormData == old(clienteFormData)
      ensures form.valid ==>
        var r := AddClientStep(old(service.State()), FromFormData(old(clienteFormData)), now, reply);
        service.State() == r.state && call == r.call && !isSubmitting
        && (r.result.Done? ==> flash == SuccessFlash(AGREGADO) && clienteFormData == EMPTY_FORM)
        && (r.result.Thrown? ==> flash == ErrorFlash(UserErrorMessage(r.result.error)) && clienteFormData == old(clienteFormData))
      ensures searchSubject == old(searchSubject)
    {
      var proceed, shown := StartSubmit(form);
      if !proceed {
        return shown.value, None;
      }
      var result;
      result, call := service.AddClient(FromFormData(clienteFormData), now, reply);
      flash := FinishSubmit(result);
    }

    /** onDeleteClient: nothing happens for a record without an id; otherwise
        the user is asked, and only a confirmed deletion reaches the service,
        whose outcome is then announced. */
    method OnDeleteClient(cliente: Cliente, confirmed: bool, reply: StoreReply)
      returns (prompt: Option<string>, flash: Option<Flash>, call: Option<StoreCall>)
      modifies service
      requires Valid()
      ensures Valid()
      ensures call.Some? <==> HasText(cliente.id) && confirmed
      ensures prompt == (if HasText(cliente.id) then Some(ConfirmPrompt(cliente)) else None)
      ensures !(HasText(cliente.id) && confirmed) ==> flash.None? && service.State() == old(service.State())
      ensures HasText(cliente.id) && confirmed ==>
        var r := DeleteStep(old(service.State()), cliente, reply);
        service.State() == r.state && call == r.call
        && flash == Some(if r.result.Done? then SuccessFlash(ELIMINADO) else ErrorFlash(UserErrorMessage(r.result.error)))
    {
      if !HasText(cliente.id) {
        return None, None, None;
      }
      prompt := Some(ConfirmPrompt(cliente));
      if !confirmed {
        return prompt, None, None;
      }
      DeleteOutcome(service.State(), cliente, reply);
      var result;
      result, call := service.Delete(cliente, reply);
      if result.Done? {
        flash := Some(SuccessFlash(ELIMINADO));
      } else {
        flash := Some(ErrorFlash(UserErrorMessage(result.error)));
      }
    }
  }
}
