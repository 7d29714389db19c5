/** The state machine of ClienteService (src/app/servicios/cliente.service.ts):
    the single cache entry, the loading and error slots and the document last
    addressed, changed by getClients, getClient, addClient, modify and delete.

    The transitions are first written as functions on a ServiceState value
    (the lemmas below are about them); the class ClienteService holds the same
    fields and its methods are proved to perform exactly those transitions.
    The store is an oracle: a write is given the reply the store would send,
    and returns the call it made, if any. The clock is the `now` parameter. An
    Observable returned by getClients is a Handle; a new Handle is one new
    subscription to the collection's snapshotChanges. */
module Service {
  import opened JsBuiltins
  import opened ClienteModel
  import opened ServiceRules

  /** One Observable<ClienteModel[]> built by getClients, by generation. */
  datatype Handle = Handle(generation: nat)

  /** CacheItem<Observable<ClienteModel[]>> */
  datatype CacheItem = CacheItem(data: Handle, timestamp: Timestamp, ttl: int)

  /** isCacheValid */
  predicate IsCacheValid(item: CacheItem, now: Timestamp) {
    now - item.timestamp < item.ttl
  }

  /** The service's fields. `subscriptions` counts the calls of
      snapshotChanges on the collection, so each Handle stands for one. */
  datatype ServiceState = ServiceState(
    clientesCache: Option<CacheItem>,
    loading: bool,
    error: Option<string>,
    clienteDoc: Option<string>,
    subscriptions: nat)

  /** The state right after construction. */
  const INITIAL: ServiceState := ServiceState(None, false, None, None, 0)

  /** The cached Observable is one the service built, with the fixed TTL. */
  ghost predicate Inv(s: ServiceState) {
    s.clientesCache.Some? ==>
      s.clientesCache.value.data.generation < s.subscriptions && s.clientesCache.value.ttl == CACHE_TTL
  }

  predicate CacheHit(s: ServiceState, now: Timestamp) {
    s.clientesCache.Some? && IsCacheValid(s.clientesCache.value, now)
  }

  // ---------------------------------------------------------------- reads

  datatype ListStep = ListStep(state: ServiceState, handle: Handle)

  /** getClients: the cached Observable while the entry is valid; otherwise
      clear the error, raise loading, subscribe anew and cache the new
      Observable stamped with `now`. */
  function GetClientsStep(s: ServiceState, now: Timestamp): ListStep {
    if CacheHit(s, now) then ListStep(s, s.clientesCache.value.data)
    else
      var h := Handle(s.subscriptions);
      ListStep(s.(error := None, loading := true, subscriptions := s.subscriptions + 1,
                  clientesCache := Some(CacheItem(h, now, CACHE_TTL))), h)
  }

  /** getClients hands back the cached Observable, and changes nothing, exactly
      when an entry exists and `now - timestamp < TTL`; otherwise the Observable
      is a new one and the entry is replaced by one stamped `now`. */
  lemma GetClientsHitOrMiss(s: ServiceState, now: Timestamp)
    requires Inv(s)
    ensures var r := GetClientsStep(s, now);
      Inv(r.state)
      && (CacheHit(s, now) <==> s.clientesCache.Some? && r.handle == s.clientesCache.value.data)
      && (CacheHit(s, now) ==> r.state == s)
      && (!CacheHit(s, now) ==>
            r.state.error.None? && r.state.loading
            && r.state.subscriptions == s.subscriptions + 1
            && r.state.clientesCache == Some(CacheItem(r.handle, now, CACHE_TTL))
            && r.state.clienteDoc == s.clienteDoc)
  {
  }

  /** The TTL comparison is strict: an entry made at t serves a call at
      t + TTL - 1 and not one at t + TTL. */
  lemma CacheExpiresAtTtl(s: ServiceState, t: Timestamp)
    requires s.clientesCache.None?
    ensures var first := GetClientsStep(s, t);
      GetClientsStep(first.state, t + CACHE_TTL - 1).handle == first.handle
      && GetClientsStep(first.state, t + CACHE_TTL).handle != first.handle
  {
  }

  /** getClients called once at each of the given times, in order: the state
      afterwards and the Observables handed back. */
  function GetClientsMany(s: ServiceState, times: seq<Timestamp>): (ServiceState, seq<Handle>)
    decreases |times|
  {
    if times == [] then (s, [])
    else
      var r := GetClientsStep(s, times[0]);
      var rest := GetClientsMany(r.state, times[1..]);
      (rest.0, [r.handle] + rest.1)
  }

  /** Calls that all fall within the TTL of an entry made at `t` share its
      Observable: none of them subscribes again. */
  lemma {:induction false} CallsWithinTtlShare(s: ServiceState, t: Timestamp, h: Handle, times: seq<Timestamp>)
    requires s.clientesCache == Some(CacheItem(h, t, CACHE_TTL))
    requires forall j :: 0 <= j < |times| ==> times[j] - t < CACHE_TTL
    ensures GetClientsMany(s, times).0 == s
    ensures forall j :: 0 <= j < |GetClientsMany(s, times).1| ==> GetClientsMany(s, times).1[j] == h
    ensures |GetClientsMany(s, times).1| == |times|
    decreases |times|
  {
    if times != [] {
      CallsWithinTtlShare(s, t, h, times[1..]);
    }
  }

  /** Repeated getClients calls within the TTL of the first, starting from an
      empty or expired cache, subscribe exactly once and all receive the same
      Observable. */
  lemma RepeatedCallsSubscribeOnce(s: ServiceState, times: seq<Timestamp>)
    requires times != [] && !CacheHit(s, times[0])
    requires forall j :: 0 <= j < |times| ==> times[j] - times[0] < CACHE_TTL
    ensures var r := GetClientsMany(s, times);
      r.0.subscriptions == s.subscriptions + 1
      && |r.1| == |times|
      && forall j :: 0 <= j < |r.1| ==> r.1[j] == Handle(s.subscriptions)
  {
    var first := GetClientsStep(s, times[0]);
    CallsWithinTtlShare(first.state, times[0], first.handle, times[1..]);
  }

  /** How getClient begins: refused for a blank id, or watching a document. */
  datatype DocWatch = IdRejected(error: ErrorValue) | Watching(path: string)

  const ID_REQUERIDO := "ID de cliente requerido"

  /** The document path `clientes/${id}`. */
  function DocPath(id: string): string {
    "clientes/" + id
  }

  datatype DocStep = DocStep(state: ServiceState, watch: DocWatch)

  /** getClient: a blank id is refused before anything changes; otherwise
      raise loading, clear the error and address the document. */
  function GetClientStep(s: ServiceState, id: string): DocStep {
    if Trim(id) == "" then DocStep(s, IdRejected(StringError(ID_REQUERIDO)))
    else DocStep(s.(loading := true, error := None, clienteDoc := Some(DocPath(id))), Watching(DocPath(id)))
  }

  /** A blank or whitespace-only id is refused with 'ID de cliente requerido'
      and leaves loading and the error slot as they were; any other id is
      watched at its own path. */
  lemma GetClientRefusesBlankId(s: ServiceState, id: string)
    ensures var r := GetClientStep(s, id);
      (r.watch.IdRejected? <==> AllWhitespace(id))
      && (r.watch.IdRejected? ==> r.state == s && r.watch.error == StringError(ID_REQUERIDO))
      && (r.watch.Watching? ==> r.watch.path == DocPath(id)
                                && r.state == s.(loading := true, error := None, clienteDoc := Some(DocPath(id))))
  {
    TrimEmptyIffAllWhitespace(id);
  }

  /** The tail of a read pipeline, once retrying has settled: a delivered value
      lowers loading (tap); a failure let through is translated into the error
      slot (catchError with handleError) and the stream completes, lowering
      loading (finalize); while still waiting nothing changes. */
  function SettleStep<T>(s: ServiceState, run: RetryRun<T>): ServiceState {
    match run
    case Delivered(_, _) => s.(loading := false)
    case Exhausted(e, _) => s.(error := Some(GetErrorMessage(e)), loading := false)
    case Waiting(_) => s
  }

  /** The first list a getClients subscriber sees, if any, for the attempts the
      collection subscription made. */
  function ListEmission(run: RetryRun<seq<Doc>>): Option<seq<Cliente>> {
    if run.Delivered? then Some(MapSnapshot(run.value)) else None
  }

  /** Two unavailable failures and then a snapshot: the records arrive after
      1 s and 2 s and the error slot stays empty; four failures in a row put
      the last one's message in the slot and deliver nothing. */
  lemma ReadRetryOutcomes(s: ServiceState, docs: seq<Doc>, e0: ErrorValue, e1: ErrorValue, e2: ErrorValue, e3: ErrorValue)
    requires s.error.None?
    ensures var run := RunWithRetry([Failed(e0), Failed(e1), Emitted(docs)], 0);
      run.Delays() == [1000, 2000] && ListEmission(run) == Some(MapSnapshot(docs))
      && SettleStep(s, run).error.None? && !SettleStep(s, run).loading
    ensures var run := RunWithRetry([Failed(e0), Failed(e1), Failed(e2), Failed(e3)], 0);
      run.Delays() == [1000, 2000, 4000] && ListEmission(run).None?
      && SettleStep(s, run).error == Some(GetErrorMessage(e3)) && !SettleStep(s, run).loading
  {
    var ok: seq<Attempt<seq<Doc>>> := [Failed(e0), Failed(e1), Emitted(docs)];
    RetryDeliversAfterFailures(ok, 0, 2);
    var bad: seq<Attempt<seq<Doc>>> := [Failed(e0), Failed(e1), Failed(e2), Failed(e3)];
    RetryExhaustsAfterFailures(bad, 0);
    BackoffFromZero();
  }

  // ---------------------------------------------------------------- writes

  /** How a write ended: resolved, or rejected with the value it re-throws. */
  datatype WriteResult = Done | Thrown(error: ErrorValue)

  /** What the store answers to the call it is given. */
  datatype StoreReply = Resolved | Rejected(error: ErrorValue)

  /** The calls a write makes on the store. */
  datatype StoreCall =
    | AddDoc(payload: Cliente)
    | UpdateDoc(path: string, payload: Cliente)
    | DeleteDoc(path: string)

  datatype WriteStep = WriteStep(state: ServiceState, result: WriteResult, call: Option<StoreCall>)

  const ID_REQUERIDO_MODIFICAR := "ID de cliente requerido para modificar"
  const ID_REQUERIDO_ELIMINAR := "ID de cliente requerido para eliminar"

  /** The `catch` and `finally` of a write: handleError puts the message in
      the error slot, loading goes down. */
  function Failing(s: ServiceState, e: ErrorValue): WriteStep {
    WriteStep(s.(error := Some(GetErrorMessage(e)), loading := false), Thrown(e), None)
  }

  /** A write that got as far as the store: loading was raised and the error
      cleared; on success the cache is invalidated; then loading goes down. */
  function Calling(s: ServiceState, call: StoreCall, reply: StoreReply): WriteStep {
    match reply
    case Resolved => WriteStep(s.(error := None, clientesCache := None, loading := false), Done, Some(call))
    case Rejected(e) => WriteStep(s.(error := Some(GetErrorMessage(e)), loading := false), Thrown(e), Some(call))
  }

  /** `{...client, saldo: client.saldo || 0, fechaCreacion: new Date()}` */
  function AddPayload(client: Cliente, now: Timestamp): Cliente {
    client.(saldo := Some(SaldoOf(client)), fechaCreacion := Some(now))
  }

  /** `{...clienteData, fechaModificacion: new Date()}` without the id. */
  function UpdatePayload(client: Cliente, now: Timestamp): Cliente {
    client.(id := None, fechaModificacion := Some(now))
  }

  /** addClient */
  function AddClientStep(s: ServiceState, client: Cliente, now: Timestamp, reply: StoreReply): WriteStep {
    match ValidateClientData(client)
    case Some(m) => Failing(s, ErrorWith(m))
    case None => Calling(s, AddDoc(AddPayload(client, now)), reply)
  }

  /** modify */
  function ModifyStep(s: ServiceState, client: Cliente, now: Timestamp, reply: StoreReply): WriteStep {
    if !HasText(client.id) then Failing(s, ErrorWith(ID_REQUERIDO_MODIFICAR))
    else match ValidateClientData(client)
      case Some(m) => Failing(s, ErrorWith(m))
      case None =>
        var path := DocPath(client.id.value);
        Calling(s.(clienteDoc := Some(path)), UpdateDoc(path, UpdatePayload(client, now)), reply)
  }

  /** delete */
  function DeleteStep(s: ServiceState, client: Cliente, reply: StoreReply): WriteStep {
    if !HasText(client.id) then Failing(s, ErrorWith(ID_REQUERIDO_ELIMINAR))
    else
      var path := DocPath(client.id.value);
      Calling(s.(clienteDoc := Some(path)), DeleteDoc(path), reply)
  }

  /** What every write promises: loading is down on every exit and the count
      of subscriptions is untouched; a success leaves the cache empty and the
      error slot clear; a failure leaves the cache as it was and puts the
      message of the re-thrown error in the error slot. */
  ghost predicate WriteOutcome(s: ServiceState, r: WriteStep) {
    && !r.state.loading
    && r.state.subscriptions == s.subscriptions
    && (r.result.Done? ==> r.state.clientesCache.None? && r.state.error.None? && r.call.Some?)
    && (r.result.Thrown? ==> r.state.clientesCache == s.clientesCache
                             && r.state.error == Some(GetErrorMessage(r.result.error)))
  }

  /** addClient: validation errors never reach the store and land in the error
      slot with their own message; otherwise the store receives the record
      with `saldo || 0` and fechaCreacion = now. */
  lemma AddClientOutcome(s: ServiceState, client: Cliente, now: Timestamp, reply: StoreReply)
    ensures var r := AddClientStep(s, client, now, reply);
      WriteOutcome(s, r)
      && r.state.clienteDoc == s.clienteDoc
      && (r.call.None? <==> ValidateClientData(client).Some?)
      && (ValidateClientData(client).Some? ==>
            r.result == Thrown(ErrorWith(ValidateClientData(client).value))
            && r.state.error == ValidateClientData(client))
      && (r.call.Some? ==>
            && r.call.value.AddDoc?
            && r.call.value.payload.saldo == Some(SaldoOf(client))
            && r.call.value.payload.fechaCreacion == Some(now)
            && r.call.value.payload.(saldo := client.saldo, fechaCreacion := client.fechaCreacion) == client
            && (r.result.Done? <==> reply.Resolved?)
            && (reply.Rejected? ==>
                  r.result == Thrown(reply.error) && r.state.error == Some(GetErrorMessage(reply.error))))
  {
    match ValidateClientData(client)
    case Some(m) => ErrorMessagePassesThrough(m);
    case None =>
  }

  /** modify: without an id it fails with its own message and calls nothing;
      otherwise after validation it updates `clientes/{id}` with every field
      but the id, and fechaModificacion = now. */
  lemma ModifyOutcome(s: ServiceState, client: Cliente, now: Timestamp, reply: StoreReply)
    ensures var r := ModifyStep(s, client, now, reply);
      WriteOutcome(s, r)
      && (!HasText(client.id) ==>
            r.call.None? && r.result == Thrown(ErrorWith(ID_REQUERIDO_MODIFICAR))
            && r.state.error == Some(ID_REQUERIDO_MODIFICAR))
      && (r.call.None? <==> !HasText(client.id) || ValidateClientData(client).Some?)
      && (HasText(client.id) && ValidateClientData(client).Some? ==>
            r.result == Thrown(ErrorWith(ValidateClientData(client).value))
            && r.state.error == ValidateClientData(client))
      && (r.call.Some? ==>
            && r.call.value == UpdateDoc(DocPath(client.id.value), r.call.value.payload)
            && r.call.value.payload.id.None?
            && r.call.value.payload.fechaModificacion == Some(now)
            && r.call.value.payload.(id := client.id, fechaModificacion := client.fechaModificacion) == client
            && r.state.clienteDoc == Some(DocPath(client.id.value))
            && (r.result.Done? <==> reply.Resolved?)
            && (reply.Rejected? ==>
                  r.result == Thrown(reply.error) && r.state.error == Some(GetErrorMessage(reply.error))))
  {
    if !HasText(client.id) {
      ErrorMessagePassesThrough(ID_REQUERIDO_MODIFICAR);
    } else {
      match ValidateClientData(client)
      case Some(m) => ErrorMessagePassesThrough(m);
      case None =>
    }
  }

  /** delete: without an id it fails with its own message and calls nothing;
      otherwise it deletes `clientes/{id}` and, unlike the other writes, does
      not validate the record. */
  lemma DeleteOutcome(s: ServiceState, client: Cliente, reply: StoreReply)
    ensures var r := DeleteStep(s, client, reply);
      WriteOutcome(s, r)
      && (r.call.None? <==> !HasText(client.id))
      && (!HasText(client.id) ==>
            r.result == Thrown(ErrorWith(ID_REQUERIDO_ELIMINAR)) && r.state.error == Some(ID_REQUERIDO_ELIMINAR))
      && (r.call.Some? ==>
            r.call.value == DeleteDoc(DocPath(client.id.value)) && (r.result.Done? <==> reply.Resolved?)
            && (reply.Rejected? ==>
                  r.result == Thrown(reply.error) && r.state.error == Some(GetErrorMessage(reply.error))))
  {
    if !HasText(client.id) {
      ErrorMessagePassesThrough(ID_REQUERIDO_ELIMINAR);
    }
  }

  /** Writes keep the cache invariant. */
  lemma WritesKeepInv(s: ServiceState, client: Cliente, now: Timestamp, reply: StoreReply)
    requires Inv(s)
    ensures Inv(AddClientStep(s, client, now, reply).state)
    ensures Inv(ModifyStep(s, client, now, reply).state)
    ensures Inv(DeleteStep(s, client, reply).state)
  {
  }

  /** After any successful write the next getClients subscribes again, however
      soon it comes. */
  lemma WriteThenReadResubscribes(s: ServiceState, client: Cliente, now: Timestamp, reply: StoreReply, later: Timestamp)
    ensures var w := AddClientStep(s, client, now, reply);
      w.result.Done? ==> GetClientsStep(w.state, later).state.subscriptions == s.subscriptions + 1
    ensures var w := ModifyStep(s, client, now, reply);
      w.result.Done? ==> GetClientsStep(w.state, later).state.subscriptions == s.subscriptions + 1
    ensures var w := DeleteStep(s, client, reply);
      w.result.Done? ==> GetClientsStep(w.state, later).state.subscriptions == s.subscriptions + 1
  {
  }

  /** A record refused by validation is refused the same way on every call,
      and never reaches the store. */
  lemma ValidationRejectsRepeatedly(s: ServiceState, client: Cliente, now: Timestamp, reply: StoreReply, later: Timestamp, reply2: StoreReply)
    requires ValidateClientData(client).Some?
    ensures var r1 := AddClientStep(s, client, now, reply);
      var r2 := AddClientStep(r1.state, client, later, reply2);
      r1.call.None? && r2.call.None? && r1.result == r2.result && r2.state == r1.state
  {
  }

  // ---------------------------------------------------------------- derived streams

  /** getSaldoTotal: the totals of the lists the Observable emits. */
  datatype TotalStream = TotalOf(source: Handle)

  /** What a TotalStream emits when its source emits `clients`: the `reduce`
      of `client.saldo || 0` from 0, which is the sum of the balances. The
      stream maps each emission of its source and keeps no state of its own,
      so the value depends on `clients` alone; `t` names which stream (its
      source handle, `t.source`) and does not change the value. */
  function TotalEmission(t: TotalStream, clients: seq<Cliente>): (r: int)
    ensures r == SumSaldo(clients)
    ensures (forall j :: 0 <= j < |clients| ==> ValidateClientData(clients[j]).None?) ==> r >= 0
  {
    if forall j :: 0 <= j < |clients| ==> ValidateClientData(clients[j]).None? then
      ValidatedTotalNonNegative(clients);
      SaldoTotal(clients)
    else SaldoTotal(clients)
  }

  /** searchClients: the Observable of getClients itself, or its lists filtered. */
  datatype Listing = Shared(source: Handle) | Filtered(source: Handle, term: string)

  /** What a Listing shows when its source emits `clients`. */
  function ListingEmission(l: Listing, clients: seq<Cliente>): seq<Cliente> {
    match l
    case Shared(_) => clients
    case Filtered(_, term) => SearchFilter(clients, term)
  }

  datatype SearchStep = SearchStep(state: ServiceState, listing: Listing)

  function SearchClientsStep(s: ServiceState, term: string, now: Timestamp): SearchStep {
    var r := GetClientsStep(s, now);
    SearchStep(r.state, if Trim(term) == "" then Shared(r.handle) else Filtered(r.handle, term))
  }

  /** A blank term gives back getClients' own Observable; any other term
      filters its lists through the case-insensitive search, the term
      untrimmed. */
  lemma SearchClientsOutcome(s: ServiceState, term: string, now: Timestamp, clients: seq<Cliente>)
    ensures var r := SearchClientsStep(s, term, now);
      r.state == GetClientsStep(s, now).state
      && r.listing.source == GetClientsStep(s, now).handle
      && (AllWhitespace(term) ==> r.listing.Shared? && ListingEmission(r.listing, clients) == clients)
      && (!AllWhitespace(term) ==> ListingEmission(r.listing, clients) == SearchFilter(clients, term))
  {
    TrimEmptyIffAllWhitespace(term);
  }

  /** The read steps keep the cache invariant too. */
  lemma ReadStepsKeepInv<T>(s: ServiceState, id: string, run: RetryRun<T>, term: string, now: Timestamp)
    requires Inv(s)
    ensures Inv(GetClientsStep(s, now).state)
    ensures Inv(GetClientStep(s, id).state)
    ensures Inv(SettleStep(s, run))
    ensures Inv(SearchClientsStep(s, term, now).state)
  {
  }

  // ---------------------------------------------------------------- the class

  class ClienteService {
    var clientesCache: Option<CacheItem>
    var loading: bool
    var error: Option<string>
    var clienteDoc: Option<string>
    var subscriptions: nat

    function State(): ServiceState
      reads this
    {
      ServiceState(clientesCache, loading, error, clienteDoc, subscriptions)
    }

    /** The cache invariant on the object's fields. */
    ghost predicate Valid()
      reads this
    {
      Inv(State())
    }

    constructor ()
      ensures State() == INITIAL && Valid()
    {
      clientesCache := None;
      loading := false;
      error := None;
      clienteDoc := None;
      subscriptions := 0;
    }

    method GetClients(now: Timestamp) returns (h: Handle)
      modifies this
      requires Valid()
      ensures Valid()
      ensures ListStep(State(), h) == GetClientsStep(old(State()), now)
    {
      if clientesCache.Some? && IsCacheValid(clientesCache.value, now) {
        return clientesCache.value.data;
      }
      error := None;
      loading := true;
      h := Handle(subscriptions);
      subscriptions := subscriptions + 1;
      clientesCache := Some(CacheItem(h, now, CACHE_TTL));
    }

    /** A subscriber of a getClients Observable, given the attempts of the
        collection subscription: what it is first given, if anything. */
    method SettleList(attempts: seq<Attempt<seq<Doc>>>) returns (emitted: Option<seq<Cliente>>)
      modifies this
      requires Valid()
      ensures Valid()
      ensures var run := RunWithRetry(attempts, 0);
        State() == SettleStep(old(State()), run) && emitted == ListEmission(run)
    {
      var run := RunWithRetry(attempts, 0);
      emitted := None;
      match run {
        case Delivered(docs, _) =>
          emitted := Some(MapSnapshot(docs));
          loading := false;
        case Exhausted(e, _) =>
          HandleError(e);
          loading := false;
        case Waiting(_) =>
      }
    }

    method GetClient(id: string) returns (w: DocWatch)
      modifies this
      requires Valid()
      ensures Valid()
      ensures DocStep(State(), w) == GetClientStep(old(State()), id)
    {
      if Trim(id) == "" {
        return IdRejected(StringError(ID_REQUERIDO));
      }
      loading := true;
      error := None;
      clienteDoc := Some(DocPath(id));
      w := Watching(DocPath(id));
    }

    /** A subscriber of a getClient Observable, given the attempts of the
        document subscription: the record, or null for a missing document. */
    method SettleClient(attempts: seq<Attempt<DocSnapshot>>) returns (emitted: Option<Option<Cliente>>)
      modifies this
      requires Valid()
      ensures Valid()
      ensures var run := RunWithRetry(attempts, 0);
        State() == SettleStep(old(State()), run)
        && emitted == (if run.Delivered? then Some(MapDocument(run.value)) else None)
    {
      var run := RunWithRetry(attempts, 0);
      emitted := None;
      match run {
        case Delivered(snapshot, _) =>
          emitted := Some(MapDocument(snapshot));
          loading := false;
        case Exhausted(e, _) =>
          HandleError(e);
          loading := false;
        case Waiting(_) =>
      }
    }

    method AddClient(client: Cliente, now: Timestamp, reply: StoreReply) returns (result: WriteResult, call: Option<StoreCall>)
      modifies this
      requires Valid()
      ensures Valid()
      ensures WriteStep(State(), result, call) == AddClientStep(old(State()), client, now, reply)
    {
      var invalid := ValidateClientData(client);
      if invalid.Some? {
        result := Fail(ErrorWith(invalid.value));
        call := None;
      } else {
        call := Some(AddDoc(AddPayload(client, now)));
        result := CallStore(call.value, reply);
      }
    }

    method Modify(client: Cliente, now: Timestamp, reply: StoreReply) returns (result: WriteResult, call: Option<StoreCall>)
      modifies this
      requires Valid()
      ensures Valid()
      ensures WriteStep(State(), result, call) == ModifyStep(old(State()), client, now, reply)
    {
      call := None;
      if !HasText(client.id) {
        result := Fail(ErrorWith(ID_REQUERIDO_MODIFICAR));
        return;
      }
      var invalid := ValidateClientData(client);
      if invalid.Some? {
        result := Fail(ErrorWith(invalid.value));
        return;
      }
      var path := DocPath(client.id.value);
      clienteDoc := Some(path);
      call := Some(UpdateDoc(path, UpdatePayload(client, now)));
      result := CallStore(call.value, reply);
    }

    method Delete(client: Cliente, reply: StoreReply) returns (result: WriteResult, call: Option<StoreCall>)
      modifies this
      requires Valid()
      ensures Valid()
      ensures WriteStep(State(), result, call) == DeleteStep(old(State()), client, reply)
    {
      if !HasText(client.id) {
        result := Fail(ErrorWith(ID_REQUERIDO_ELIMINAR));
        call := None;
      } else {
        clienteDoc := Some(DocPath(client.id.value));
        call := Some(DeleteDoc(DocPath(client.id.value)));
        result := CallStore(call.value, reply);
      }
    }

    /** A write that throws before reaching the store, through its `catch`
        and `finally`. */
    method Fail(e: ErrorValue) returns (result: WriteResult)
      modifies this
      requires Valid()
      ensures Valid()
      ensures WriteStep(State(), result, None) == Failing(old(State()), e)
    {
      result := Thrown(e);
      Finish(result);
    }

    /** A write whose checks passed: raise loading, clear the error, await the
        store, then the `catch` and `finally`. */
    method CallStore(call: StoreCall, reply: StoreReply) returns (result: WriteResult)
      modifies this
      requires Valid()
      ensures Valid()
      ensures WriteStep(State(), result, Some(call)) == Calling(old(State()), call, reply)
    {
      Begin();
      result := Await(reply);
      Finish(result);
    }

    method GetSaldoTotal(now: Timestamp) returns (t: TotalStream)
      modifies this
      requires Valid()
      ensures Valid()
      ensures State() == GetClientsStep(old(State()), now).state
      ensures t == TotalOf(GetClientsStep(old(State()), now).handle)
      ensures forall clients :: TotalEmission(t, clients) == SumSaldo(clients)
    {
      var h := GetClients(now);
      t := TotalOf(h);
    }

    method SearchClients(term: string, now: Timestamp) returns (l: Listing)
      modifies this
      requires Valid()
      ensures Valid()
      ensures SearchStep(State(), l) == SearchClientsStep(old(State()), term, now)
    {
      var h := GetClients(now);
      if Trim(term) == "" {
        return Shared(h);
      }
      l := Filtered(h, term);
    }

    /** What a write does first once its checks pass: raise loading, clear the error. */
    method Begin()
      modifies this
      requires Valid()
      ensures Valid()
      ensures State() == old(State()).(loading := true, error := None)
    {
      loading := true;
      error := None;
    }

    /** The `catch` and `finally` of a write. */
    method Finish(result: WriteResult)
      modifies this
      requires Valid()
      ensures Valid()
      ensures State() == (if result.Thrown? then old(State()).(error := Some(GetErrorMessage(result.error)))
                          else old(State())).(loading := false)
    {
      if result.Thrown? {
        HandleError(result.error);
      }
      loading := false;
    }

    /** The `await` of a store call and the invalidation after it. */
    method Await(reply: StoreReply) returns (result: WriteResult)
      modifies this
      requires Valid()
      ensures Valid()
      ensures result == (if reply.Resolved? then Done else Thrown(reply.error))
      ensures clientesCache == (if reply.Resolved? then None else old(clientesCache))
      ensures loading == old(loading) && error == old(error)
      ensures clienteDoc == old(clienteDoc) && subscriptions == old(subscriptions)
    {
      match reply {
        case Resolved =>
          InvalidateCache();
          result := Done;
        case Rejected(e) =>
          result := Thrown(e);
      }
    }

    method InvalidateCache()
      modifies this
      requires Valid()
      ensures Valid()
      ensures State() == old(State()).(clientesCache := None)
    {
      clientesCache := None;
    }

    method HandleError(e: ErrorValue)
      modifies this
      requires Valid()
      ensures Valid()
      ensures State() == old(State()).(error := Some(GetErrorMessage(e)))
    {
      error := Some(GetErrorMessage(e));
    }
  }
}
