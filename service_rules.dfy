/** The decision logic of ClienteService (src/app/servicios/cliente.service.ts)
    that does not touch the service's state: record validation, the e-mail
    syntax check, the error-message table, the retry schedule, the mapping of
    store snapshots to records, the balance total and the search filter. */
module ServiceRules {
  import opened JsBuiltins
  import opened ClienteModel

  /** CACHE_TTL: five minutes, in milliseconds. */
  const CACHE_TTL: int := 5 * 60 * 1000
  /** MAX_RETRY_ATTEMPTS */
  const MAX_RETRY_ATTEMPTS: nat := 3

  // ---------------------------------------------------------------- validation

  const NOMBRE_REQUERIDO := "El nombre del cliente es requerido"
  const APELLIDO_REQUERIDO := "El apellido del cliente es requerido"
  const EMAIL_INVALIDO := "El formato del email no es válido"
  const SALDO_NEGATIVO := "El saldo no puede ser negativo"

  /** `!field?.trim()`: absent, or nothing but whitespace. */
  predicate Blank(field: Option<string>) {
    field.None? || Trim(field.value) == ""
  }

  /** `client.email && !isValidEmail(client.email)`: an absent or empty e-mail
      is not checked. */
  predicate EmailRejected(c: Cliente) {
    HasText(c.email) && !IsValidEmail(c.email.value)
  }

  /** `client.saldo && client.saldo < 0`: an absent or zero balance passes. */
  predicate SaldoRejected(c: Cliente) {
    c.saldo.Some? && c.saldo.value != 0 && c.saldo.value < 0
  }

  /** validateClientData: None when the record passes, Some(message) with the
      message of the first check that fails, in the order nombre, apellido,
      email, saldo. */
  function ValidateClientData(c: Cliente): (r: Option<string>)
    ensures r == Some(NOMBRE_REQUERIDO) <==> Blank(c.nombre)
    ensures r == Some(APELLIDO_REQUERIDO) <==> !Blank(c.nombre) && Blank(c.apellido)
    ensures r == Some(EMAIL_INVALIDO) <==> !Blank(c.nombre) && !Blank(c.apellido) && EmailRejected(c)
    ensures r == Some(SALDO_NEGATIVO) <==>
      !Blank(c.nombre) && !Blank(c.apellido) && !EmailRejected(c) && SaldoRejected(c)
    ensures r == None <==>
      !Blank(c.nombre) && !Blank(c.apellido) && !EmailRejected(c) && !SaldoRejected(c)
  {
    if Blank(c.nombre) then Some(NOMBRE_REQUERIDO)
    else if Blank(c.apellido) then Some(APELLIDO_REQUERIDO)
    else if EmailRejected(c) then Some(EMAIL_INVALIDO)
    else if SaldoRejected(c) then Some(SALDO_NEGATIVO)
    else None
  }

  /** A record that passes validation has a balance of at least zero. */
  lemma ValidatedSaldoNonNegative(c: Cliente)
    requires ValidateClientData(c) == None
    ensures SaldoOf(c) >= 0
  {
  }

  /** Validation looks only at the four data fields, never at the id or the
      timestamps. */
  lemma ValidationIgnoresIdAndTimestamps(c: Cliente, id: Option<string>, created: Option<Timestamp>, modified: Option<Timestamp>)
    ensures ValidateClientData(c.(id := id, fechaCreacion := created, fechaModificacion := modified))
         == ValidateClientData(c)
  {
  }

  // ---------------------------------------------------------------- e-mail

  /** `[^\s@]`: neither whitespace nor '@'. */
  predicate EmailChar(c: char) {
    !IsWhitespace(c) && c != '@'
  }

  predicate AllEmailChars(s: string) {
    forall j :: 0 <= j < |s| ==> EmailChar(s[j])
  }

  /** The language of /^[^\s@]+@[^\s@]+\.[^\s@]+$/: an '@' at index i and a '.'
      at index k with at least one character before the '@', between the two,
      and after the '.', and every character but the '@' in `[^\s@]`. */
  ghost predicate InEmailLanguage(e: string) {
    exists i, k :: 0 < i && i + 1 < k < |e| - 1 && e[i] == '@' && e[k] == '.'
      && forall j :: 0 <= j < |e| && j != i ==> EmailChar(e[j])
  }

  /** The first index of `c` in `s`, if any. */
  function IndexOf(s: string, c: char): (r: Option<nat>)
    ensures r.None? ==> c !in s
    ensures r.Some? ==> r.value < |s| && s[r.value] == c && c !in s[..r.value]
  {
    if s == [] then None
    else if s[0] == c then Some(0)
    else match IndexOf(s[1..], c)
      case None => None
      case Some(i) =>
        assert s[..i + 1] == [s[0]] + s[1..][..i];
        Some(i + 1)
  }

  /** A '.' that is neither the first nor the last character. */
  predicate HasInnerDot(d: string) {
    exists k :: 0 < k < |d| - 1 && d[k] == '.'
  }

  /** isValidEmail: split at the first '@' into a non-empty local part L and a
      domain D, both free of whitespace and '@', the domain with an inner '.'. */
  predicate IsValidEmail(e: string) {
    match IndexOf(e, '@')
    case None => false
    case Some(i) => 0 < i && AllEmailChars(e[..i]) && AllEmailChars(e[i + 1..]) && HasInnerDot(e[i + 1..])
  }

  /** isValidEmail accepts exactly the strings the regular expression matches. */
  lemma IsValidEmailMatchesRegex(e: string)
    ensures IsValidEmail(e) <==> InEmailLanguage(e)
  {
    if IsValidEmail(e) {
      AcceptedInLanguage(e);
    }
    if InEmailLanguage(e) {
      LanguageAccepted(e);
    }
  }

  /** What isValidEmail accepts, the regular expression matches. */
  lemma AcceptedInLanguage(e: string)
    requires IsValidEmail(e)
    ensures InEmailLanguage(e)
  {
    var i := IndexOf(e, '@').value;
    var d := e[i + 1..];
    var k :| 0 < k < |d| - 1 && d[k] == '.';
    assert e[i + 1 + k] == '.';
    forall j | 0 <= j < |e| && j != i ensures EmailChar(e[j]) {
      if j < i { assert e[j] == e[..i][j]; } else { assert e[j] == d[j - i - 1]; }
    }
  }

  /** What the regular expression matches, isValidEmail accepts. */
  lemma LanguageAccepted(e: string)
    requires InEmailLanguage(e)
    ensures IsValidEmail(e)
  {
    var i, k :| 0 < i && i + 1 < k < |e| - 1 && e[i] == '@' && e[k] == '.'
      && forall j :: 0 <= j < |e| && j != i ==> EmailChar(e[j]);
    assert IndexOf(e, '@') == Some(i) by {
      assert e[..i + 1][i] == '@';
    }
    var d := e[i + 1..];
    assert d[k - i - 1] == '.';
    assert forall j :: 0 <= j < |d| ==> d[j] == e[i + 1 + j];
    assert forall j :: 0 <= j < i ==> e[..i][j] == e[j];
  }

  /** isValidEmail accepts L + "@" + D exactly when L is non-empty, L and D
      are free of whitespace and '@', and D has an inner '.'. */
  lemma EmailSplit(l: string, d: string)
    ensures IsValidEmail(l + "@" + d) <==> l != [] && AllEmailChars(l) && AllEmailChars(d) && HasInnerDot(d)
  {
    var e := l + "@" + d;
    assert e[|l|] == '@';
    if AllEmailChars(l) {
      assert e[..|l|] == l && e[|l| + 1..] == d;
      assert '@' !in e[..|l|];
      assert IndexOf(e, '@') == Some(|l|);
    } else {
      // no split at or before the '@' that follows L leaves two valid halves
      forall i | 0 <= i <= |l| ensures !(AllEmailChars(e[..i]) && AllEmailChars(e[i + 1..])) {
        if i == |l| {
          assert e[..i] == l;
        } else {
          assert e[i + 1..][|l| - i - 1] == '@';
        }
      }
      var r := IndexOf(e, '@');
      assert r.Some? by { assert e[|l|] in e; }
      assert r.value <= |l|;
    }
  }

  /** The address of the service tests' new client is accepted. */
  lemma EmailAcceptedExample()
    ensures IsValidEmail("nuevo@test.com")
  {
    assert "nuevo@test.com" == "nuevo" + "@" + "test.com";
    assert AllEmailChars("nuevo");
    assert AllEmailChars("test.com");
    assert "test.com"[4] == '.';
    EmailSplit("nuevo", "test.com");
  }

  /** A string without '@' is rejected, as the service test's 'invalid-email'. */
  lemma EmailRejectedExample()
    ensures !IsValidEmail("invalid-email")
  {
    var e := "invalid-email";
    forall j | 0 <= j < |e| ensures e[j] != '@' {
      assert e[j] in "abcdefghijklmnopqrstuvwxyz-";
    }
  }

  // ---------------------------------------------------------------- error table

  const PERMISO_DENEGADO := "No tienes permisos para realizar esta operación"
  const NO_DISPONIBLE := "Servicio temporalmente no disponible. Intenta más tarde."
  const NO_EXISTE := "El documento solicitado no existe"
  const INESPERADO := "Ha ocurrido un error inesperado"
  const DESCONOCIDO := "Error desconocido"

  /** getErrorMessage: a present `code` selects a fixed message; without one,
      the error's own `message` if it has one, else a generic message. A
      string has neither property. */
  function GetErrorMessage(e: ErrorValue): (r: string)
    ensures r != ""
    ensures e.ObjectError? && !HasText(e.code) && HasText(e.message) ==> r == e.message.value
    ensures !(e.ObjectError? && (HasText(e.code) || HasText(e.message))) ==> r == DESCONOCIDO
  {
    match e
    case ObjectError(code, message) =>
      if HasText(code) then
        if code.value == "permission-denied" then PERMISO_DENEGADO
        else if code.value == "unavailable" then NO_DISPONIBLE
        else if code.value == "not-found" then NO_EXISTE
        else INESPERADO
      else if HasText(message) then message.value
      else DESCONOCIDO
    case _ => DESCONOCIDO
  }

  /** A present code decides the message whatever the error's `message` says,
      and only an unknown code gets the generic text. */
  lemma ErrorCodeDecides(code: string, m1: Option<string>, m2: Option<string>)
    requires code != ""
    ensures GetErrorMessage(ObjectError(Some(code), m1)) == GetErrorMessage(ObjectError(Some(code), m2))
    ensures GetErrorMessage(ObjectError(Some(code), m1)) == INESPERADO <==>
      code !in {"permission-denied", "unavailable", "not-found"}
  {
  }

  /** The three known codes select their own fixed texts, which differ from
      each other and from the two generic ones. */
  lemma KnownErrorCodes(m: Option<string>)
    ensures GetErrorMessage(ObjectError(Some("permission-denied"), m)) == PERMISO_DENEGADO
    ensures GetErrorMessage(ObjectError(Some("unavailable"), m)) == NO_DISPONIBLE
    ensures GetErrorMessage(ObjectError(Some("not-found"), m)) == NO_EXISTE
    ensures PERMISO_DENEGADO != NO_DISPONIBLE && PERMISO_DENEGADO != NO_EXISTE && NO_DISPONIBLE != NO_EXISTE
    ensures INESPERADO !in {PERMISO_DENEGADO, NO_DISPONIBLE, NO_EXISTE}
    ensures DESCONOCIDO !in {PERMISO_DENEGADO, NO_DISPONIBLE, NO_EXISTE, INESPERADO}
  {
    assert |PERMISO_DENEGADO| == 47 && |NO_DISPONIBLE| == 56 && |NO_EXISTE| == 33;
    assert |INESPERADO| == 31 && |DESCONOCIDO| == 17;
  }

  /** An `Error` raised with a non-empty message is shown with that message. */
  lemma ErrorMessagePassesThrough(m: string)
    requires m != ""
    ensures GetErrorMessage(ErrorWith(m)) == m
  {
  }

  // ---------------------------------------------------------------- retry

  datatype RetryDecision = Delay(ms: nat) | Propagate

  function Pow2(n: nat): (r: nat)
    ensures r >= 1
    ensures n > 0 ==> r == 2 * Pow2(n - 1)
  {
    if n == 0 then 1 else 2 * Pow2(n - 1)
  }

  /** getRetryStrategy, for the failure with the given index (counted from 0):
      wait 2^index seconds and resubscribe, or let the failure through. */
  function RetryDecisionAt(index: nat): (d: RetryDecision) {
    if index >= MAX_RETRY_ATTEMPTS then Propagate else Delay(Pow2(index) * 1000)
  }

  /** The schedule: 1000, 2000 and 4000 ms, then the failure propagates, each
      delay twice the previous one. */
  lemma RetrySchedule(index: nat)
    ensures RetryDecisionAt(0) == Delay(1000) && RetryDecisionAt(1) == Delay(2000)
    ensures RetryDecisionAt(2) == Delay(4000)
    ensures index >= 3 ==> RetryDecisionAt(index) == Propagate
    ensures 0 < index < 3 ==> RetryDecisionAt(index).ms == 2 * RetryDecisionAt(index - 1).ms
  {
  }

  /** What one subscription attempt to the store produced first. */
  datatype Attempt<+T> = Emitted(value: T) | Failed(error: ErrorValue)

  /** Where retrying got to: the first value, delivered after the given delays;
      the failure let through after them; or still waiting on the store. */
  datatype RetryRun<+T> =
    | Delivered(value: T, delays: seq<nat>)
    | Exhausted(error: ErrorValue, delays: seq<nat>)
    | Waiting(delays: seq<nat>)
  {
    function Delays(): seq<nat> {
      match this
      case Delivered(_, d) => d
      case Exhausted(_, d) => d
      case Waiting(d) => d
    }

    function AfterDelay(ms: nat): RetryRun<T> {
      match this
      case Delivered(v, d) => Delivered(v, [ms] + d)
      case Exhausted(e, d) => Exhausted(e, [ms] + d)
      case Waiting(d) => Waiting([ms] + d)
    }
  }

  /** `retryWhen(getRetryStrategy)`: consume the attempts in order, the failure
      counter starting at `index`. */
  function RunWithRetry<T>(attempts: seq<Attempt<T>>, index: nat): RetryRun<T>
    decreases |attempts|
  {
    if attempts == [] then Waiting([])
    else match attempts[0]
      case Emitted(v) => Delivered(v, [])
      case Failed(e) =>
        match RetryDecisionAt(index)
        case Propagate => Exhausted(e, [])
        case Delay(ms) => RunWithRetry(attempts[1..], index + 1).AfterDelay(ms)
  }

  /** The delays waited before the attempt with index k, counting from `from`. */
  function Backoff(from: nat, k: nat): seq<nat>
    decreases k
  {
    if k == 0 then [] else [Pow2(from) * 1000] + Backoff(from + 1, k - 1)
  }

  /** A value emitted on attempt k, after k failures, is delivered when the
      failure counter has not passed the limit, after the backoff delays. */
  lemma {:induction false} RetryDeliversAfterFailures<T>(attempts: seq<Attempt<T>>, index: nat, k: nat)
    requires index + k <= MAX_RETRY_ATTEMPTS
    requires k < |attempts| && attempts[k].Emitted?
    requires forall j :: 0 <= j < k ==> attempts[j].Failed?
    ensures RunWithRetry(attempts, index) == Delivered(attempts[k].value, Backoff(index, k))
    decreases k
  {
    if k > 0 {
      RetryDeliversAfterFailures(attempts[1..], index + 1, k - 1);
    }
  }

  /** Once the failure counter reaches the limit, the next failure propagates
      after the delays so far: from a fresh counter, four failures in a row. */
  lemma {:induction false} RetryExhaustsAfterFailures<T>(attempts: seq<Attempt<T>>, index: nat)
    requires index <= MAX_RETRY_ATTEMPTS
    requires MAX_RETRY_ATTEMPTS - index < |attempts|
    requires forall j :: 0 <= j <= MAX_RETRY_ATTEMPTS - index ==> attempts[j].Failed?
    ensures RunWithRetry(attempts, index)
         == Exhausted(attempts[MAX_RETRY_ATTEMPTS - index].error, Backoff(index, MAX_RETRY_ATTEMPTS - index))
    decreases MAX_RETRY_ATTEMPTS - index
  {
    if index < MAX_RETRY_ATTEMPTS {
      RetryExhaustsAfterFailures(attempts[1..], index + 1);
    }
  }

  /** Never more than four attempts are consulted: what follows the fourth
      attempt makes no difference. */
  lemma {:induction false} RetryConsultsAtMostFourAttempts<T>(attempts: seq<Attempt<T>>, index: nat)
    requires index <= MAX_RETRY_ATTEMPTS
    requires MAX_RETRY_ATTEMPTS - index < |attempts|
    ensures RunWithRetry(attempts, index) == RunWithRetry(attempts[..MAX_RETRY_ATTEMPTS - index + 1], index)
    decreases MAX_RETRY_ATTEMPTS - index
  {
    var n := MAX_RETRY_ATTEMPTS - index + 1;
    assert attempts[..n][0] == attempts[0];
    if index < MAX_RETRY_ATTEMPTS {
      RetryConsultsAtMostFourAttempts(attempts[1..], index + 1);
      assert attempts[..n][1..] == attempts[1..][..n - 1];
    }
  }

  /** From a fresh counter the delays are 1000, 2000, 4000 ms. */
  lemma BackoffFromZero()
    ensures Backoff(0, 3) == [1000, 2000, 4000]
  {
    assert Pow2(1) == 2 && Pow2(2) == 4;
  }

  // ---------------------------------------------------------------- snapshots

  /** A document of the collection: the store's id and the stored fields. */
  datatype Doc = Doc(id: string, data: Cliente)

  /** A single-document snapshot: whether the document exists, its id and fields. */
  datatype DocSnapshot = DocSnapshot(exists_: bool, id: string, data: Cliente)

  /** The `map` in getClients: each document's fields with `id` set to the
      document id. */
  function MapSnapshot(docs: seq<Doc>): (r: seq<Cliente>)
    ensures |r| == |docs|
    ensures forall j :: 0 <= j < |docs| ==> r[j] == docs[j].data.(id := Some(docs[j].id))
  {
    if docs == [] then [] else [docs[0].data.(id := Some(docs[0].id))] + MapSnapshot(docs[1..])
  }

  /** The `map` in getClient: a document that does not exist becomes null. */
  function MapDocument(d: DocSnapshot): (r: Option<Cliente>)
    ensures r.None? <==> !d.exists_
    ensures r.Some? ==> r.value.id == Some(d.id)
    ensures r.Some? ==> r.value == d.data.(id := Some(d.id))
  {
    if !d.exists_ then None else Some(d.data.(id := Some(d.id)))
  }

  // ---------------------------------------------------------------- totals

  /** `client.saldo || 0` */
  function SaldoOf(c: Cliente): int {
    if c.saldo.Some? then c.saldo.value else 0
  }

  /** The sum of the balances, absent ones counted as 0. */
  function SumSaldo(clients: seq<Cliente>): int {
    if clients == [] then 0 else SaldoOf(clients[0]) + SumSaldo(clients[1..])
  }

  /** `clients.reduce((total, client) => total + (client.saldo || 0), total)` */
  function ReduceSaldo(total: int, clients: seq<Cliente>): int
    decreases |clients|
  {
    if clients == [] then total else ReduceSaldo(total + SaldoOf(clients[0]), clients[1..])
  }

  /** The left fold adds the sum of the balances to its start value. */
  lemma {:induction false} ReduceIsSum(total: int, clients: seq<Cliente>)
    ensures ReduceSaldo(total, clients) == total + SumSaldo(clients)
    decreases |clients|
  {
    if clients != [] {
      ReduceIsSum(total + SaldoOf(clients[0]), clients[1..]);
    }
  }

  /** The total of a concatenation is the sum of the totals. */
  lemma {:induction false} SumSaldoAppend(a: seq<Cliente>, b: seq<Cliente>)
    ensures SumSaldo(a + b) == SumSaldo(a) + SumSaldo(b)
    decreases |a|
  {
    if a == [] {
      assert a + b == b;
    } else {
      assert (a + b)[1..] == a[1..] + b;
      SumSaldoAppend(a[1..], b);
    }
  }

  /** The total of records that all passed validation is not negative. */
  lemma {:induction false} ValidatedTotalNonNegative(clients: seq<Cliente>)
    requires forall j :: 0 <= j < |clients| ==> ValidateClientData(clients[j]) == None
    ensures SumSaldo(clients) >= 0
    decreases |clients|
  {
    if clients != [] {
      ValidatedSaldoNonNegative(clients[0]);
      ValidatedTotalNonNegative(clients[1..]);
    }
  }

  /** The `map` in getSaldoTotal: the sum of the balances; 0 for no records. */
  function SaldoTotal(clients: seq<Cliente>): (r: int)
    ensures r == SumSaldo(clients)
    ensures clients == [] ==> r == 0
  {
    ReduceIsSum(0, clients);
    ReduceSaldo(0, clients)
  }

  /** The service test's balances 1000, 2000 and -500 total 2500. */
  lemma SaldoTotalExample(a: Cliente, b: Cliente, c: Cliente)
    requires a.saldo == Some(1000) && b.saldo == Some(2000) && c.saldo == Some(-500)
    ensures SaldoTotal([a, b, c]) == 2500
  {
    assert [a, b, c][1..] == [b, c] && [b, c][1..] == [c];
    assert SumSaldo([c]) == -500;
    assert SumSaldo([b, c]) == 1500;
  }

  // ---------------------------------------------------------------- search

  /** `field?.toLowerCase().includes(term)`, an absent field never matching. */
  predicate FieldIncludes(field: Option<string>, lowered: string) {
    field.Some? && Includes(ToLower(field.value), lowered)
  }

  /** The predicate of the `filter` in searchClients, for the lowered term. */
  predicate SearchMatches(c: Cliente, lowered: string) {
    FieldIncludes(c.nombre, lowered) || FieldIncludes(c.apellido, lowered) || FieldIncludes(c.email, lowered)
  }

  /** The `filter` in searchClients: the term is lowered but not trimmed. */
  function SearchFilter(clients: seq<Cliente>, term: string): seq<Cliente> {
    var lowered := ToLower(term);
    Filter(clients, c => SearchMatches(c, lowered))
  }

  /** A record is kept exactly when its lowered name, surname or e-mail
      contains the lowered term. */
  lemma SearchFilterMembers(clients: seq<Cliente>, term: string, c: Cliente)
    ensures c in SearchFilter(clients, term) <==> c in clients && SearchMatches(c, ToLower(term))
  {
    var lowered := ToLower(term);
    FilterMembers(clients, c => SearchMatches(c, lowered), c);
  }

  /** The filter keeps the original order: it distributes over concatenation. */
  lemma SearchFilterKeepsOrder(a: seq<Cliente>, b: seq<Cliente>, term: string)
    ensures SearchFilter(a + b, term) == SearchFilter(a, term) + SearchFilter(b, term)
  {
    var lowered := ToLower(term);
    FilterAppend(a, b, c => SearchMatches(c, lowered));
  }

  /** Searching ignores the case of the term. */
  lemma SearchIgnoresTermCase(clients: seq<Cliente>, t1: string, t2: string)
    requires ToLower(t1) == ToLower(t2)
    ensures SearchFilter(clients, t1) == SearchFilter(clients, t2)
  {
  }

  /** A record whose name equals the term up to case is found, as the service
      test finds 'Juan' for 'JUAN'. */
  lemma SearchFindsNameInAnyCase(clients: seq<Cliente>, term: string, c: Cliente)
    requires c in clients && c.nombre.Some? && ToLower(c.nombre.value) == ToLower(term)
    ensures c in SearchFilter(clients, term)
  {
    IncludesSelf(ToLower(term));
    SearchFilterMembers(clients, term, c);
  }
}
