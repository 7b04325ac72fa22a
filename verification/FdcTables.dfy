/** Construction of the FDC routing tables from the configuration.

    Go iterates maps in an unspecified order; the loops below pick any remaining entry. */
module FdcTables {
  import opened Terms
  import Identifier

  /** `acceptable` is the verdict of Credentials.Check on the server. */
  datatype Server = Server(url: string, acceptable: bool)

  datatype VerifierConfig = VerifierConfig(attType: seq<Byte>, sourceId: seq<Byte>, server: Server, queue: string)

  datatype QueueParams = QueueParams(maxAttempts: int, timeOff: int, errorChan: bool)

  datatype Config = Config(queues: map<string, QueueParams>, verifiers: map<string, VerifierConfig>)

  datatype Fdc = Fdc(
    idToQueue: map<seq<Byte>, string>, queues: map<string, QueueParams>, servers: map<seq<Byte>, Server>)

  // ---------- specification ----------

  predicate Acceptable(v: VerifierConfig) {
    0 < |v.attType| <= 32 && 0 < |v.sourceId| <= 32 && v.server.acceptable
  }

  function Id(v: VerifierConfig): seq<Byte> {
    match Identifier.Join(v.attType, v.sourceId)
    case Ok(id) => id
    case Err(_) => []
  }

  predicate NoSharedId(vs: map<string, VerifierConfig>) {
    forall m, n | m in vs && n in vs && m != n :: Id(vs[m]) != Id(vs[n])
  }

  predicate HandlerAccepts(vs: map<string, VerifierConfig>) {
    (forall n | n in vs :: Acceptable(vs[n])) && NoSharedId(vs)
  }

  predicate QueuesDeclared(c: Config) {
    forall n | n in c.verifiers :: c.verifiers[n].queue in c.queues
  }

  /** `table` holds, for every entry of vs and nothing else, `field` of that entry under its identifier. */
  predicate Tabulates<T(==)>(table: map<seq<Byte>, T>, vs: map<string, VerifierConfig>, field: VerifierConfig -> T) {
    && (forall n | n in vs :: Id(vs[n]) in table && table[Id(vs[n])] == field(vs[n]))
    && (forall id | id in table :: exists n :: n in vs && Id(vs[n]) == id)
  }

  function ServerOf(v: VerifierConfig): Server { v.server }

  function QueueOf(v: VerifierConfig): string { v.queue }

  function WithErrorChan(qs: map<string, QueueParams>): map<string, QueueParams> {
    map name | name in qs :: qs[name].(errorChan := true)
  }

  predicate BuiltFrom(f: Fdc, c: Config) {
    && Tabulates(f.servers, c.verifiers, ServerOf)
    && Tabulates(f.idToQueue, c.verifiers, QueueOf)
    && f.queues == WithErrorChan(c.queues)
  }

  // ---------- implementation ----------

  method NewFDCHandler(vs: map<string, VerifierConfig>) returns (r: Result<map<seq<Byte>, Server>, string>)
    ensures r.Ok? <==> HandlerAccepts(vs)
    ensures r.Ok? ==> Tabulates(r.value, vs, ServerOf)
  {
    var table: map<seq<Byte>, Server> := map[];
    var seen: map<seq<Byte>, string> := map[];
    var remaining := vs.Keys;
    while remaining != {}
      invariant remaining <= vs.Keys
      invariant forall n | n in vs.Keys - remaining ::
                  Acceptable(vs[n]) && Id(vs[n]) in seen && seen[Id(vs[n])] == n &&
                  Id(vs[n]) in table && table[Id(vs[n])] == vs[n].server
      invariant forall id | id in seen :: seen[id] in vs.Keys - remaining && Id(vs[seen[id]]) == id
      invariant table.Keys == seen.Keys
    {
      var name :| name in remaining;
      var v := vs[name];
      if v.attType == [] || v.sourceId == [] {
        return Err("empty type or source");
      }
      var identifier := Identifier.Join(v.attType, v.sourceId);
      if identifier.Err? {
        return Err(identifier.error);
      }
      if identifier.value in seen {
        assert seen[identifier.value] != name;
        return Err("verifiers serve the same type and source");
      }
      seen := seen[identifier.value := name];
      if !v.server.acceptable {
        return Err("invalid verifier server");
      }
      table := table[identifier.value := v.server];
      remaining := remaining - {name};
    }
    return Ok(table);
  }

  method NewFDC(cfg: Option<Config>) returns (r: Result<Fdc, string>)
    ensures cfg.None? ==> r == Ok(Fdc(map[], map[], map[]))
    ensures cfg.Some? ==> (r.Ok? <==> HandlerAccepts(cfg.value.verifiers) && QueuesDeclared(cfg.value))
    ensures cfg.Some? && r.Ok? ==> BuiltFrom(r.value, cfg.value)
  {
    if cfg.None? {
      var none := NewFDCHandler(map[]);
      assert none == Ok(map[]); // no entry can fail
      return Ok(Fdc(map[], map[], none.value));
    }
    var c := cfg.value;
    var handler := NewFDCHandler(c.verifiers);
    if handler.Err? {
      return Err(handler.error);
    }
    var queues := WithErrorChan(c.queues);
    var table := FillQueueTable(c.verifiers, queues.Keys);
    if table.Err? {
      return Err(table.error);
    }
    return Ok(Fdc(table.value, queues, handler.value));
  }

  method FillQueueTable(vs: map<string, VerifierConfig>, declared: set<string>)
    returns (r: Result<map<seq<Byte>, string>, string>)
    requires NoSharedId(vs)
    ensures r.Ok? <==> forall n | n in vs :: |vs[n].attType| <= 32 && |vs[n].sourceId| <= 32 && vs[n].queue in declared
    ensures r.Ok? ==> Tabulates(r.value, vs, QueueOf)
  {
    var table: map<seq<Byte>, string> := map[];
    var remaining := vs.Keys;
    while remaining != {}
      invariant remaining <= vs.Keys
      invariant forall n | n in vs.Keys - remaining ::
                  |vs[n].attType| <= 32 && |vs[n].sourceId| <= 32 && vs[n].queue in declared &&
                  Id(vs[n]) in table && table[Id(vs[n])] == vs[n].queue
      invariant forall id | id in table :: exists n :: n in vs && Id(vs[n]) == id
    {
      var name :| name in remaining;
      var v := vs[name];
      var identifier := Identifier.Join(v.attType, v.sourceId);
      if identifier.Err? {
        return Err(identifier.error);
      }
      table := table[identifier.value := v.queue];
      if v.queue !in declared {
        return Err("undefined queue");
      }
      remaining := remaining - {name};
    }
    return Ok(table);
  }

  /** Config.CheckQueues. */
  method CheckQueues(qs: map<string, QueueParams>) returns (ok: bool)
    ensures ok <==> forall n | n in qs :: qs[n].maxAttempts >= 1 && (qs[n].maxAttempts > 1 ==> qs[n].timeOff > 0)
  {
    var remaining := qs.Keys;
    while remaining != {}
      invariant remaining <= qs.Keys
      invariant forall n | n in qs.Keys - remaining ::
                  qs[n].maxAttempts >= 1 && (qs[n].maxAttempts > 1 ==> qs[n].timeOff > 0)
    {
      var name :| name in remaining;
      var q := qs[name];
      if q.maxAttempts < 1 {
        return false;
      }
      if q.maxAttempts > 1 && q.timeOff <= 0 {
        return false;
      }
      remaining := remaining - {name};
    }
    return true;
  }

  // ---------- properties ----------

  /** A tabulation is unique, so the tables do not depend on the order of iteration. */
  lemma TableUnique<T>(s: map<seq<Byte>, T>, t: map<seq<Byte>, T>, vs: map<string, VerifierConfig>,
      field: VerifierConfig -> T)
    requires Tabulates(s, vs, field) && Tabulates(t, vs, field)
    ensures s == t
  {
    forall id | id in s ensures id in t && s[id] == t[id] {
      var n :| n in vs && Id(vs[n]) == id;
    }
    forall id | id in t ensures id in s {
      var n :| n in vs && Id(vs[n]) == id;
    }
  }

  predicate SameEntry(f: Fdc, c: Config, id: seq<Byte>) {
    exists n :: n in c.verifiers && Id(c.verifiers[n]) == id && id in f.servers && id in f.idToQueue &&
      f.servers[id] == c.verifiers[n].server && f.idToQueue[id] == c.verifiers[n].queue
  }

  /** The two independently built tables have the same identifiers, and for each identifier the server
      and the queue come from the same configuration entry, whose queue exists. */
  lemma TablesAgree(f: Fdc, c: Config)
    requires BuiltFrom(f, c) && QueuesDeclared(c)
    ensures f.servers.Keys == f.idToQueue.Keys
    ensures forall id | id in f.idToQueue :: SameEntry(f, c, id) && f.idToQueue[id] in f.queues
  {
    forall id | id in f.idToQueue ensures id in f.servers && SameEntry(f, c, id) && f.idToQueue[id] in f.queues {
      var n :| n in c.verifiers && Id(c.verifiers[n]) == id;
    }
    forall id | id in f.servers ensures id in f.idToQueue {
      var n :| n in c.verifiers && Id(c.verifiers[n]) == id;
    }
  }

  predicate SharePair(vs: map<string, VerifierConfig>, m: string, n: string)
    requires m in vs && n in vs
  {
    m != n && vs[m].attType == vs[n].attType && vs[m].sourceId == vs[n].sourceId
  }

  /** For printable names the duplicate check on 64-byte keys is the check on the two strings. */
  lemma DuplicateCheckIsOnPairs(vs: map<string, VerifierConfig>)
    requires forall n | n in vs :: Acceptable(vs[n])
    requires forall n | n in vs :: Identifier.Printable(vs[n].attType) && Identifier.Printable(vs[n].sourceId)
    ensures NoSharedId(vs) <==> forall m, n | m in vs && n in vs :: !SharePair(vs, m, n)
  {
    forall m, n | m in vs && n in vs
      ensures Id(vs[m]) == Id(vs[n]) <==> vs[m].attType == vs[n].attType && vs[m].sourceId == vs[n].sourceId
    {
      Identifier.JoinCollidesIff(vs[m].attType, vs[m].sourceId, vs[n].attType, vs[n].sourceId);
      Identifier.PrintableUntrimmed(vs[m].attType, Identifier.Trailing);
      Identifier.PrintableUntrimmed(vs[n].attType, Identifier.Trailing);
      Identifier.PrintableUntrimmed(vs[m].sourceId, Identifier.Trailing);
      Identifier.PrintableUntrimmed(vs[n].sourceId, Identifier.Trailing);
    }
    if !NoSharedId(vs) {
      var m, n :| m in vs && n in vs && m != n && Id(vs[m]) == Id(vs[n]);
      assert SharePair(vs, m, n);
    }
  }

  // ---------- lookups ----------

  function AttTypeAndSourceID(r: FdcRequest): seq<Byte> {
    Identifier.Concat(r.attestationType, r.sourceId)
  }

  function DecodeRequest(message: Bytes): Option<FdcRequest> {
    if message.RequestDoc? then Some(message.request) else None
  }

  /** FDC.Process: the queue an instruction with this message is added to. */
  function QueueFor(f: Fdc, message: Bytes): Option<string> {
    match DecodeRequest(message)
    case None => None
    case Some(r) =>
      var id := AttTypeAndSourceID(r);
      if id !in f.idToQueue then None
      else if f.idToQueue[id] !in f.queues then None
      else Some(f.idToQueue[id])
  }

  /** FDC.Handle: the server that verifies the request. */
  function ServerFor(servers: map<seq<Byte>, Server>, r: FdcRequest): Option<Server> {
    var id := AttTypeAndSourceID(r);
    if id in servers then Some(servers[id]) else None
  }

  /** The entry's type and source are those of the request. */
  predicate Serves(v: VerifierConfig, r: FdcRequest) {
    Identifier.PaddedTo(v.attType, r.attestationType) && Identifier.PaddedTo(v.sourceId, r.sourceId)
  }

  lemma IdServes(v: VerifierConfig, r: FdcRequest)
    ensures Id(v) == AttTypeAndSourceID(r) <==> Serves(v, r)
  {
    if |v.attType| <= 32 && |v.sourceId| <= 32 {
      Identifier.PadsExactly(v.attType, r.attestationType);
      Identifier.PadsExactly(v.sourceId, r.sourceId);
      Identifier.ConcatHalves(Identifier.Pad(v.attType), Identifier.Pad(v.sourceId));
      Identifier.ConcatHalves(r.attestationType, r.sourceId);
    }
  }

  /** A request goes to the queue and the server of the entry whose type and source it names, and it is taken
      only if there is one. */
  lemma RequestGoesToEntry(f: Fdc, c: Config, r: FdcRequest)
    requires BuiltFrom(f, c) && QueuesDeclared(c)
    ensures forall n | n in c.verifiers && Serves(c.verifiers[n], r) ::
              && QueueFor(f, RequestDoc(r)) == Some(c.verifiers[n].queue)
              && ServerFor(f.servers, r) == Some(c.verifiers[n].server)
    ensures QueueFor(f, RequestDoc(r)).Some? <==> exists n :: n in c.verifiers && Serves(c.verifiers[n], r)
    ensures ServerFor(f.servers, r).Some? <==> exists n :: n in c.verifiers && Serves(c.verifiers[n], r)
  {
    TablesAgree(f, c);
    var id := AttTypeAndSourceID(r);
    forall n | n in c.verifiers ensures Id(c.verifiers[n]) == id <==> Serves(c.verifiers[n], r) {
      IdServes(c.verifiers[n], r);
    }
  }

  lemma SharedIdServesBoth(v: VerifierConfig, w: VerifierConfig)
    requires |v.attType| <= 32 && |v.sourceId| <= 32
    ensures Id(v) == Id(w) <==> exists r: FdcRequest :: Serves(v, r) && Serves(w, r)
  {
    var r := FdcRequest(Identifier.Pad(v.attType), Identifier.Pad(v.sourceId), 0);
    IdServes(v, r);
    IdServes(w, r);
    forall q: FdcRequest | Serves(v, q) && Serves(w, q) ensures Id(v) == Id(w) {
      IdServes(v, q);
      IdServes(w, q);
    }
  }

  /** No request is served by both entries. */
  ghost predicate Disjoint(v: VerifierConfig, w: VerifierConfig) {
    !exists r: FdcRequest :: Serves(v, r) && Serves(w, r)
  }

  /** The handler accepts a configuration exactly if every entry is complete, fits and has an acceptable server,
      and no request would be served by two. */
  lemma AcceptedExactly(vs: map<string, VerifierConfig>)
    ensures HandlerAccepts(vs) <==>
              && (forall n | n in vs ::
                    0 < |vs[n].attType| <= 32 && 0 < |vs[n].sourceId| <= 32 && vs[n].server.acceptable)
              && (forall m, n | m in vs && n in vs && m != n :: Disjoint(vs[m], vs[n]))
  {
    forall m, n | m in vs && n in vs && |vs[m].attType| <= 32 && |vs[m].sourceId| <= 32
      ensures Id(vs[m]) == Id(vs[n]) <==> !Disjoint(vs[m], vs[n])
    {
      SharedIdServesBoth(vs[m], vs[n]);
    }
  }

  /** Each queue runs with the parameters configured for it, and its errors are always reported. */
  lemma QueuesAsConfigured(f: Fdc, c: Config, q: string)
    requires BuiltFrom(f, c)
    ensures q in f.queues <==> q in c.queues
    ensures q in f.queues ==>
              && f.queues[q].maxAttempts == c.queues[q].maxAttempts && f.queues[q].timeOff == c.queues[q].timeOff
              && f.queues[q].errorChan
  {
  }

  /** What Process accepts, Handle finds a verifier for: that of the entry whose queue it was put on. */
  lemma AcceptedFindsVerifier(f: Fdc, c: Config, message: Bytes)
    requires BuiltFrom(f, c) && QueuesDeclared(c)
    ensures QueueFor(f, message).Some? <==> message.RequestDoc? && AttTypeAndSourceID(message.request) in f.servers
    ensures QueueFor(f, message).Some? ==>
              var id := AttTypeAndSourceID(message.request);
              SameEntry(f, c, id) && QueueFor(f, message).value == f.idToQueue[id]
  {
    TablesAgree(f, c);
  }
}
