/** Parsing, filtering and routing of collected logs. */
module Router {
  import opened Terms
  import opened Sequences

  datatype Class = Invalid | Plain | Fdc | Backup

  datatype Filterer = NoFilterer | ProviderFilterer | CosignerFilterer(address: Address)

  /** `validPairs` are the pairs the op library accepts. */
  datatype Router = Router(filterer: Filterer, validPairs: set<(OpType, OpCommand)>)

  function InstClass(r: Router, t: OpType, c: OpCommand): Class {
    if t == FDC2 && c == Prove then Fdc
    else if t == Wallet && c == KeyDataProviderRestore then Backup
    else if t == Wallet && c == KeyDirectRestore then Backup
    else if (t, c) in r.validPairs then Plain
    else Invalid
  }

  predicate FiltersOut(f: Filterer, e: Event) {
    f.CosignerFilterer? && f.address !in e.cosigners
  }

  datatype Fate = ParseError | FilteredOut | Unroutable | Handed(processor: Class)

  function FateOf(r: Router, l: Log): Fate {
    if l.event.None? then ParseError
    else if FiltersOut(r.filterer, l.event.value) then FilteredOut
    else
      var processor := InstClass(r, l.event.value.opType, l.event.value.opCommand);
      if processor.Invalid? then Unroutable else Handed(processor)
  }

  /** The logs that ended in a given way. */
  function Ended(r: Router, logs: seq<Log>, fate: Fate): seq<Log> {
    Filter(logs, Ending(r, fate))
  }

  function Ending(r: Router, fate: Fate): Log -> bool {
    l => FateOf(r, l) == fate
  }

  lemma EndedAppend(r: Router, logs: seq<Log>, l: Log)
    ensures forall fate :: Ended(r, logs + [l], fate) == Ended(r, logs, fate) + if FateOf(r, l) == fate then [l] else []
  {
    forall fate ensures Ended(r, logs + [l], fate) == Ended(r, logs, fate) + if FateOf(r, l) == fate then [l] else [] {
      FilterAppend(logs, [l], Ending(r, fate));
    }
  }

  /** The processor goroutines started, by processor, and the logs that ended without one. */
  class Ledger {
    var unparsed: seq<Log>
    var filtered: seq<Log>
    var unroutable: seq<Log>
    var plain: seq<Log>
    var fdc: seq<Log>
    var backup: seq<Log>

    constructor ()
      ensures unparsed == filtered == unroutable == plain == fdc == backup == []
    {
      unparsed, filtered, unroutable, plain, fdc, backup := [], [], [], [], [], [];
    }

    ghost predicate Accounts(r: Router, logs: seq<Log>)
      reads this
    {
      && unparsed == Ended(r, logs, ParseError)
      && filtered == Ended(r, logs, FilteredOut)
      && unroutable == Ended(r, logs, Unroutable)
      && plain == Ended(r, logs, Handed(Plain))
      && fdc == Ended(r, logs, Handed(Fdc))
      && backup == Ended(r, logs, Handed(Backup))
    }

    /** Router.Handle. */
    method Handle(r: Router, l: Log, ghost before: seq<Log>)
      requires Accounts(r, before)
      modifies this
      ensures Accounts(r, before + [l])
    {
      EndedAppend(r, before, l);
      if l.event.None? {
        unparsed := unparsed + [l];
        return;
      }
      var event := l.event.value;
      if !r.filterer.NoFilterer? && FiltersOut(r.filterer, event) {
        filtered := filtered + [l];
        return;
      }
      match InstClass(r, event.opType, event.opCommand)
      case Invalid => unroutable := unroutable + [l];
      case Plain => plain := plain + [l];
      case Fdc => fdc := fdc + [l];
      case Backup => backup := backup + [l];
    }

    /** Router.Run over the batches received until the channel closes. */
    method Run(r: Router, batches: seq<seq<Log>>)
      requires unparsed == filtered == unroutable == plain == fdc == backup == []
      modifies this
      ensures Accounts(r, Flatten(batches))
    {
      ghost var done: seq<Log> := [];
      for i := 0 to |batches|
        invariant done == Flatten(batches[..i])
        invariant Accounts(r, done)
      {
        ghost var before := done;
        for j := 0 to |batches[i]|
          invariant done == before + batches[i][..j]
          invariant Accounts(r, done)
        {
          Handle(r, batches[i][j], done);
          done := done + [batches[i][j]];
        }
        assert batches[..i + 1] == batches[..i] + [batches[i]];
        FlattenSnoc(batches[..i], batches[i]);
      }
      assert batches[..|batches|] == batches;
    }
  }

  lemma EndedCount(r: Router, logs: seq<Log>, fate: Fate, l: Log)
    ensures multiset(Ended(r, logs, fate))[l] == if FateOf(r, l) == fate then multiset(logs)[l] else 0
  {
    FilterCount(logs, Ending(r, fate), l);
  }

  /** Every log ends in exactly one of the six ways: nothing is lost, duplicated or handed twice. */
  lemma RouterConserves(r: Router, logs: seq<Log>)
    ensures multiset(logs) ==
              multiset(Ended(r, logs, ParseError)) + multiset(Ended(r, logs, FilteredOut)) +
              multiset(Ended(r, logs, Unroutable)) + multiset(Ended(r, logs, Handed(Plain))) +
              multiset(Ended(r, logs, Handed(Fdc))) + multiset(Ended(r, logs, Handed(Backup)))
  {
    var union := multiset(Ended(r, logs, ParseError)) + multiset(Ended(r, logs, FilteredOut)) +
                 multiset(Ended(r, logs, Unroutable)) + multiset(Ended(r, logs, Handed(Plain))) +
                 multiset(Ended(r, logs, Handed(Fdc))) + multiset(Ended(r, logs, Handed(Backup)));
    forall l: Log ensures multiset(logs)[l] == union[l] {
      EndedCount(r, logs, ParseError, l);
      EndedCount(r, logs, FilteredOut, l);
      EndedCount(r, logs, Unroutable, l);
      EndedCount(r, logs, Handed(Plain), l);
      EndedCount(r, logs, Handed(Fdc), l);
      EndedCount(r, logs, Handed(Backup), l);
    }
  }

  /** The pairs with a processor of their own, whether or not the library lists them. */
  const SPECIAL_PAIRS := {(FDC2, Prove), (Wallet, KeyDataProviderRestore), (Wallet, KeyDirectRestore)}

  /** Who gets what, pair by pair: the Backup processor never meets a command it does not support. */
  lemma ClassExactly(r: Router, t: OpType, c: OpCommand)
    ensures InstClass(r, t, c) == Fdc <==> t == FDC2 && c == Prove
    ensures InstClass(r, t, c) == Backup <==> t == Wallet && c in {KeyDataProviderRestore, KeyDirectRestore}
    ensures InstClass(r, t, c) == Plain <==> (t, c) in r.validPairs - SPECIAL_PAIRS
  {
  }

  /** The event passes the filter: always for a data provider, and for a cosigner exactly if it is listed. */
  predicate Passes(r: Router, e: Event) {
    match r.filterer
    case CosignerFilterer(address) => exists i :: 0 <= i < |e.cosigners| && e.cosigners[i] == address
    case _ => true
  }

  /** The fate of a log, from its event's own fields: what does not parse, what the filter stops, and of the
      rest what reaches which processor. */
  lemma FateExactly(r: Router, l: Log)
    ensures FateOf(r, l) == ParseError <==> l.event.None?
    ensures FateOf(r, l) == FilteredOut <==> l.event.Some? && !Passes(r, l.event.value)
    ensures l.event.Some? && Passes(r, l.event.value) ==>
              var pair := (l.event.value.opType, l.event.value.opCommand);
              && (FateOf(r, l) == Handed(Fdc) <==> pair == (FDC2, Prove))
              && (FateOf(r, l) == Handed(Backup) <==>
                    pair == (Wallet, KeyDataProviderRestore) || pair == (Wallet, KeyDirectRestore))
              && (FateOf(r, l) == Handed(Plain) <==>
                    pair in r.validPairs && pair != (FDC2, Prove) &&
                    pair != (Wallet, KeyDataProviderRestore) && pair != (Wallet, KeyDirectRestore))
              && FateOf(r, l) in {Handed(Fdc), Handed(Backup), Handed(Plain), Unroutable}
  {
    if l.event.Some? && r.filterer.CosignerFilterer? {
      var e, address := l.event.value, r.filterer.address;
      assert address in e.cosigners <==> exists i :: 0 <= i < |e.cosigners| && e.cosigners[i] == address;
    }
  }

  /** NewFilterer: a cosigner filters by the address of the key its signer identifies with. */
  method NewFilterer(isCosigner: bool, identity: Option<PublicKey>, onCurve: PublicKey -> bool)
    returns (f: Option<Filterer>)
    ensures f.Some? <==> (isCosigner ==> identity.Some? && onCurve(identity.value))
    ensures f.Some? ==> f.value == if isCosigner then CosignerFilterer(OfKey(identity.value)) else ProviderFilterer
  {
    if !isCosigner {
      return Some(ProviderFilterer);
    }
    if identity.None? {
      return None;
    }
    if !onCurve(identity.value) {
      return None;
    }
    return Some(CosignerFilterer(OfKey(identity.value)));
  }
}
