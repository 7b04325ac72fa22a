/** The instruction object that travels through the pipeline, and its per-TEE signing. */
module Signers {
  import opened Terms

  /** Local and Remote are the two signers of the repository; Other is any implementation of the
      exported Signer interface, about whose replies the relay knows nothing. */
  datatype Signer = Local(key: PublicKey) | Remote(key: PublicKey) | Other(key: PublicKey)

  datatype Reply = Signatures(signatures: seq<Signature>) | Unavailable

  function SignAll(key: PublicKey, hashes: seq<Hash>): (signatures: seq<Signature>)
    ensures |signatures| == |hashes|
    ensures forall j | 0 <= j < |hashes| :: Verifies(OfKey(key), hashes[j], signatures[j])
  {
    seq(|hashes|, j requires 0 <= j < |hashes| => By(key, TextHash(hashes[j])))
  }

  /** What a call of Sign returns when the transport or the key library answers `reply`. */
  function Call(signer: Signer, hashes: seq<Hash>, reply: Reply): Result<seq<Signature>, string> {
    match (signer, reply)
    case (_, Unavailable) => Err("post call rejected or key error")
    case (Local(key), Signatures(_)) => Ok(SignAll(key, hashes))
    case (Remote(_), Signatures(signatures)) =>
      if |hashes| != |signatures| then Err("wrong number of signatures") else Ok(signatures)
    case (Other(_), Signatures(signatures)) => Ok(signatures)
  }

  /** The j-th signature of a reply of the right length is the personal signature of the j-th hash. */
  predicate Honest(signer: Signer, hashes: seq<Hash>, reply: Reply) {
    reply.Signatures? && |reply.signatures| == |hashes| ==>
      reply.signatures == SignAll(signer.key, hashes)
  }

  /** k hashes in, k signatures out; with an honest service they are the right ones. */
  lemma SignerContract(signer: Signer, hashes: seq<Hash>, reply: Reply)
    requires !signer.Other?
    ensures Call(signer, hashes, reply).Ok? ==> |Call(signer, hashes, reply).value| == |hashes|
    ensures Honest(signer, hashes, reply) && Call(signer, hashes, reply).Ok? ==>
              Call(signer, hashes, reply).value == SignAll(signer.key, hashes)
  {
  }
}

module Deduplication {

  /** s without the entries that occurred before. */
  function Dedup<T(==)>(s: seq<T>): seq<T> {
    if s == [] then []
    else
      var unique, last := Dedup(s[..|s| - 1]), s[|s| - 1];
      if last in unique then unique else unique + [last]
  }

  function FirstIndex<T(==)>(s: seq<T>, x: T): (i: nat)
    requires x in s
    ensures i < |s| && s[i] == x && x !in s[..i]
  {
    if s[0] == x then 0 else 1 + FirstIndex(s[1..], x)
  }

  /** r lists every entry of s once, ordered by first occurrence. */
  predicate ListsFirstOccurrences<T(==)>(r: seq<T>, s: seq<T>) {
    && (forall x | x in r :: x in s) && (forall x | x in s :: x in r)
    && (forall i, j | 0 <= i < j < |r| :: FirstIndex(s, r[i]) < FirstIndex(s, r[j]))
  }

  lemma {:induction false} FirstIndexOfPrefix<T>(s: seq<T>, t: seq<T>, x: T)
    requires x in s
    ensures FirstIndex(s + t, x) == FirstIndex(s, x)
  {
    if s[0] != x {
      assert (s + t)[1..] == s[1..] + t;
      FirstIndexOfPrefix(s[1..], t, x);
    }
  }

  lemma {:induction false} DedupListsFirstOccurrences<T>(s: seq<T>)
    ensures ListsFirstOccurrences(Dedup(s), s)
  {
    if s != [] {
      var front, last := s[..|s| - 1], s[|s| - 1];
      assert s == front + [last];
      DedupListsFirstOccurrences(front);
      var unique := Dedup(front);
      forall x | x in front ensures FirstIndex(s, x) == FirstIndex(front, x) {
        FirstIndexOfPrefix(front, [last], x);
      }
      if last !in unique {
        assert FirstIndex(s, last) == |front|;
      }
    }
  }

  /** The specification leaves exactly one result. */
  lemma FirstOccurrencesUnique<T>(a: seq<T>, b: seq<T>, s: seq<T>)
    requires ListsFirstOccurrences(a, s) && ListsFirstOccurrences(b, s)
    ensures a == b
  {
    var p, q := Places(a, s), Places(b, s);
    forall x | x in p ensures x in q {
      var i :| 0 <= i < |p| && p[i] == x;
      assert a[i] in b;
      var j :| 0 <= j < |b| && b[j] == a[i];
      assert q[j] == x;
    }
    forall x | x in q ensures x in p {
      var i :| 0 <= i < |q| && q[i] == x;
      assert b[i] in a;
      var j :| 0 <= j < |a| && a[j] == b[i];
      assert p[j] == x;
    }
    IncreasingUnique(p, q);
    forall i | 0 <= i < |a| ensures a[i] == b[i] {
      assert a[i] == s[p[i]] && b[i] == s[q[i]];
    }
  }

  function Places<T(==)>(r: seq<T>, s: seq<T>): (places: seq<nat>)
    requires forall x | x in r :: x in s
    ensures |places| == |r|
    ensures forall i | 0 <= i < |r| :: places[i] == FirstIndex(s, r[i])
  {
    seq(|r|, i requires 0 <= i < |r| => FirstIndex(s, r[i]))
  }

  lemma MembersNeedRoom<T>(p: seq<T>, q: seq<T>)
    requires forall x | x in q :: x in p
    ensures p == [] ==> q == []
  {
    if q != [] {
      assert q[0] in p;
    }
  }

  lemma {:induction false} IncreasingUnique(p: seq<nat>, q: seq<nat>)
    requires forall i, j | 0 <= i < j < |p| :: p[i] < p[j]
    requires forall i, j | 0 <= i < j < |q| :: q[i] < q[j]
    requires (forall x | x in p :: x in q) && (forall x | x in q :: x in p)
    ensures p == q
  {
    MembersNeedRoom(p, q);
    if p == [] {
    } else {
      assert p[0] in q;
      var x, y := p[|p| - 1], q[|q| - 1];
      assert x in q && y in p;
      assert x == y;
      var p', q' := p[..|p| - 1], q[..|q| - 1];
      forall z | z in p' ensures z in q' {
        assert z in p && z < x;
      }
      forall z | z in q' ensures z in p' {
        assert z in q && z < y;
      }
      IncreasingUnique(p', q');
      assert p == p' + [x] && q == q' + [y];
    }
  }

  /** What concatenating two lists of machines adds to the deliveries. */
  function Without<T(==)>(s: seq<T>, seen: seq<T>): seq<T> {
    if s == [] then []
    else Without(s[..|s| - 1], seen) + if s[|s| - 1] in seen then [] else [s[|s| - 1]]
  }

  lemma {:induction false} DedupOfConcat<T>(a: seq<T>, b: seq<T>)
    ensures Dedup(a + b) == Dedup(a) + Without(Dedup(b), Dedup(a))
  {
    if b == [] {
      assert a + b == a;
    } else {
      var front, last := b[..|b| - 1], b[|b| - 1];
      assert (a + b)[..|a + b| - 1] == a + front;
      DedupOfConcat(a, front);
      DedupListsFirstOccurrences(front);
      WithoutMembers(Dedup(front), Dedup(a), last);
      if last !in Dedup(front) {
        assert (Dedup(front) + [last])[..|Dedup(front)|] == Dedup(front);
      }
    }
  }

  lemma {:induction false} WithoutMembers<T>(s: seq<T>, seen: seq<T>, x: T)
    ensures x in Without(s, seen) <==> x in s && x !in seen
  {
    if s != [] {
      WithoutMembers(s[..|s| - 1], seen, x);
      assert s == s[..|s| - 1] + [s[|s| - 1]];
    }
  }

  lemma {:induction false} DedupIdempotent<T>(s: seq<T>)
    ensures Dedup(Dedup(s)) == Dedup(s)
  {
    if s != [] {
      var front, last := s[..|s| - 1], s[|s| - 1];
      DedupIdempotent(front);
      if last !in Dedup(front) {
        assert (Dedup(front) + [last])[..|Dedup(front)|] == Dedup(front);
      }
    }
  }

  /** removeDuplicates: one pass with a set of the entries seen. */
  method RemoveDuplicates<T(==)>(s: seq<T>) returns (unique: seq<T>)
    ensures ListsFirstOccurrences(unique, s)
    ensures unique == Dedup(s)
  {
    var seen: set<T> := {};
    unique := [];
    for j := 0 to |s|
      invariant unique == Dedup(s[..j])
      invariant forall x :: x in seen <==> x in unique
    {
      assert s[..j + 1][..j] == s[..j];
      if s[j] !in seen {
        seen := seen + {s[j]};
        unique := unique + [s[j]];
      }
    }
    assert s[..|s|] == s;
    DedupListsFirstOccurrences(s);
  }
}

module Instructions {
  import opened Terms
  import opened Signers
  import opened Deduplication

  /** The contents of an instruction object. */
  datatype Value = Value(event: Event, tees: seq<Machine>, data: Data, signatures: seq<Signature>)

  /** v differs from `before` in the two extra messages and the signatures at most. */
  predicate OnlyExtrasDiffer(before: Value, v: Value) {
    && v.event == before.event && v.tees == before.tees
    && v.data.(fixedMessage := before.data.fixedMessage, variableMessage := before.data.variableMessage) == before.data
  }

  /** What ParseInstruction builds: a copy of the event's fields, both extra messages empty. */
  function FromEvent(event: Event, timestamp: nat): Value {
    Value(event, Dedup(event.machines), EventData(event, timestamp), [])
  }

  function EventData(event: Event, timestamp: nat): Data {
    Data(Account(0), event.instructionId, timestamp, event.rewardEpochId, event.opType, event.opCommand,
         event.cosigners, event.cosignersThreshold, event.message, EMPTY, EMPTY)
  }

  /** Field for field what the event and its block say. */
  predicate Copies(d: Data, e: Event, timestamp: nat) {
    && d.instructionId == e.instructionId && d.rewardEpochId == e.rewardEpochId
    && d.opType == e.opType && d.opCommand == e.opCommand
    && d.cosigners == e.cosigners && d.cosignersThreshold == e.cosignersThreshold
    && d.originalMessage == e.message && d.timestamp == timestamp
  }

  lemma FromEventCopies(e: Event, timestamp: nat)
    ensures var v := FromEvent(e, timestamp);
            && v.event == e && Copies(v.data, e, timestamp) && ListsFirstOccurrences(v.tees, e.machines)
            && v.data.fixedMessage == Raw([]) && v.data.variableMessage == Raw([]) && v.signatures == []
  {
    DedupListsFirstOccurrences(e.machines);
  }

  /** The hash the j-th TEE expects a signature of, for every j. */
  function Hashes(v: Value, chainId: nat): (hashes: seq<Hash>)
    ensures |hashes| == |v.tees|
    ensures forall j | 0 <= j < |v.tees| ::
              hashes[j] == InstructionHash(chainId, v.data.(teeId := v.tees[j].teeId))
  {
    seq(|v.tees|, j requires 0 <= j < |v.tees| => InstructionHash(chainId, v.data.(teeId := v.tees[j].teeId)))
  }

  /** instructions.Base. */
  class Base {
    var event: Event
    var tees: seq<Machine>
    var data: Data
    var signatures: seq<Signature>

    function Contents(): Value
      reads this
    {
      Value(event, tees, data, signatures)
    }

    constructor Parse(e: Event, timestamp: nat)
      ensures Contents() == FromEvent(e, timestamp)
      ensures event == e && Copies(data, e, timestamp) && ListsFirstOccurrences(tees, e.machines)
      ensures data.fixedMessage == Raw([]) && data.variableMessage == Raw([]) && signatures == []
    {
      event := e;
      tees := [];
      data := EventData(e, 0);
      signatures := [];
      new;
      EventToData(timestamp);
      FromEventCopies(e, timestamp);
    }

    method EventToData(timestamp: nat)
      modifies this
      ensures Contents() == FromEvent(old(event), timestamp).(signatures := old(signatures))
      ensures event == old(event) && Copies(data, event, timestamp) && ListsFirstOccurrences(tees, event.machines)
      ensures data.fixedMessage == Raw([]) && data.variableMessage == Raw([])
    {
      data := Data(
        Account(0), event.instructionId, timestamp, event.rewardEpochId, event.opType, event.opCommand,
        event.cosigners, event.cosignersThreshold, event.message, EMPTY, EMPTY);
      tees := RemoveDuplicates(event.machines);
    }

    /** Hashes a working copy once per TEE; `fault` is the TEE whose hashing fails, if any. */
    method HashesForSigning(chainId: nat, fault: Option<nat>) returns (r: Result<seq<Hash>, string>)
      ensures r.Ok? <==> fault.None? || fault.value >= |tees|
      ensures r.Ok? ==> r.value == Hashes(Contents(), chainId)
    {
      var copy := data;
      var hashes := [];
      for j := 0 to |tees|
        invariant hashes == Hashes(Contents(), chainId)[..j]
        invariant copy == data.(teeId := copy.teeId)
        invariant fault.Some? ==> j <= fault.value
      {
        copy := copy.(teeId := tees[j].teeId);
        if fault == Some(j) {
          return Err("hashing instruction");
        }
        hashes := hashes + [InstructionHash(chainId, copy)];
      }
      return Ok(hashes);
    }

    /** Sign: only a successful call changes the object, and then only its signatures. */
    method Sign(signer: Signer, chainId: nat, fault: Option<nat>, reply: Reply) returns (ok: bool)
      modifies this`signatures
      ensures ok <==> (fault.None? || fault.value >= |tees|) &&
                      Call(signer, Hashes(old(Contents()), chainId), reply).Ok?
      ensures ok ==> signatures == Call(signer, Hashes(old(Contents()), chainId), reply).value
      ensures !ok ==> signatures == old(signatures)
    {
      var toSign := HashesForSigning(chainId, fault);
      if toSign.Err? {
        return false;
      }
      assert Hashes(Contents(), chainId) == Hashes(old(Contents()), chainId);
      var signed := Call(signer, toSign.value, reply);
      if signed.Err? {
        return false;
      }
      signatures := signed.value;
      return true;
    }
  }

  /** The result of PrepareInstruction; OutOfRange is the run-time panic of indexing Signatures. */
  datatype Prepared = Ready(data: Data, signature: Signature, url: string) | InvalidIndex | OutOfRange

  /** sender.PrepareInstruction: re-assembles the message for the j-th TEE. */
  function PrepareInstruction(v: Value, j: int): Prepared {
    if j < 0 || j >= |v.tees| then InvalidIndex
    else if j >= |v.signatures| then OutOfRange
    else Ready(v.data.(teeId := v.tees[j].teeId), v.signatures[j], v.tees[j].url)
  }

  /** The sender's goroutines index Signatures without a check: they are all safe exactly when there
      are at least as many signatures as TEEs. */
  lemma PrepareSafeIff(v: Value)
    ensures (forall j | 0 <= j < |v.tees| :: PrepareInstruction(v, j).Ready?) <==> |v.tees| <= |v.signatures|
  {
    if |v.signatures| < |v.tees| {
      assert PrepareInstruction(v, |v.signatures|).OutOfRange?;
    }
  }

  /** A signer outside the repository that returns no signatures makes Sign succeed and the sender panic. */
  lemma UncheckedSignerPanicsSender(key: PublicKey, chainId: nat, event: Event)
    requires event.machines != []
    ensures var v := FromEvent(event, 0);
            Call(Other(key), Hashes(v, chainId), Signatures([])) == Ok([]) &&
            PrepareInstruction(v.(signatures := []), 0).OutOfRange?
  {
    DedupListsFirstOccurrences(event.machines);
    assert event.machines[0] in Dedup(event.machines);
  }

  /** Signing and re-assembly agree index by index, and each signature fits one message only. */
  lemma SignedMessagesVerify(v: Value, key: PublicKey, chainId: nat, j: nat)
    requires j < |v.tees| && v.signatures == SignAll(key, Hashes(v, chainId))
    ensures var m := PrepareInstruction(v, j);
            && m.Ready? && m.data.teeId == v.tees[j].teeId && m.url == v.tees[j].url
            && m.data.(teeId := v.data.teeId) == v.data
            && Verifies(OfKey(key), InstructionHash(chainId, m.data), m.signature)
            && forall k: PublicKey, c: nat, d: Data ::
                 Verifies(OfKey(k), InstructionHash(c, d), m.signature) ==> k == key && c == chainId && d == m.data
  {
    assert Hashes(v, chainId)[j] == InstructionHash(chainId, v.data.(teeId := v.tees[j].teeId));
  }
}
