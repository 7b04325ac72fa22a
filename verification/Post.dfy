/** JSON POST with retries, and the bounded error text it returns.

    Error texts are byte strings; a char stands for one byte. */
module Post {
  import opened Terms

  /** What one post yields: a decoded 200 response, or an error with its HTTP status (0: no response). */
  datatype Outcome<+T> = Decoded(message: Option<T>) | Failed(status: int, reason: string)

  datatype Late = Never | BeforeSnapshot | AfterSnapshot

  /** The environment of one WithRetry call. outcomes[i] is what post i yields if it completes.
      When the retry budget runs out, it does so at attempt `budget`: before it is sent, or while
      it is in flight. An abandoned attempt may still complete, before or after the counters are read. */
  datatype Schedule<+T> = Schedule(outcomes: seq<Outcome<T>>, budget: Option<nat>, inFlight: bool, late: Late)

  datatype Answer<+T> = Response(message: T) | MissingBody | Fault(text: string)

  function Nth<T>(s: Schedule<T>, i: nat): Outcome<T> {
    if i < |s.outcomes| then s.outcomes[i] else Failed(0, "no response")
  }

  /** Zero means the call produced no HTTP response. */
  predicate Retryable(status: int) {
    status == 0 || status == 408 || status == 429 || 500 <= status <= 599
  }

  predicate Transient<T>(o: Outcome<T>) {
    o.Failed? && Retryable(o.status)
  }

  // ---------- specification ----------

  /** The first attempt in [from, max) that ends the loop by itself, or max. */
  function FirstFinal<T>(s: Schedule<T>, from: nat, max: nat): (k: nat)
    requires from <= max
    ensures from <= k <= max
    ensures forall i | from <= i < k :: Transient(Nth(s, i))
    ensures k < max ==> !Transient(Nth(s, k))
    decreases max - from
  {
    if from == max || !Transient(Nth(s, from)) then from else FirstFinal(s, from + 1, max)
  }

  predicate Expired<T>(s: Schedule<T>, max: nat) {
    s.budget.Some? && s.budget.value < max && s.budget.value <= FirstFinal(s, 0, max)
  }

  /** The number of posts sent. */
  function Posts<T>(s: Schedule<T>, max: nat): nat {
    var k := FirstFinal(s, 0, max);
    if Expired(s, max) then s.budget.value + (if s.inFlight then 1 else 0)
    else if k < max then k + 1
    else max
  }

  /** The number of attempts the counters have seen complete when they are read. */
  function Counted<T>(s: Schedule<T>, max: nat): nat {
    if Expired(s, max) && !(s.inFlight && s.late.BeforeSnapshot?) then s.budget.value else Posts(s, max)
  }

  function FirstError<T>(s: Schedule<T>, n: nat): Option<string> {
    if n > 0 && Nth(s, 0).Failed? then Some(Nth(s, 0).reason) else None
  }

  const EXHAUSTED_PREFIX := "all attempts failed: "
  const BUDGET_TEXT := "retry budget exhausted"

  /** The text of retry.Execute's error; only the reason of the last attempt matters here. */
  function ExhaustedText<T>(s: Schedule<T>, max: nat): string {
    EXHAUSTED_PREFIX + if max > 0 && Nth(s, max - 1).Failed? then Nth(s, max - 1).reason else ""
  }

  function Fail<T>(s: Schedule<T>, max: nat, cause: string): Answer<T> {
    Fault(Cap(WithHistory(cause, Counted(s, max), FirstError(s, Counted(s, max)))))
  }

  /** What WithRetry returns: the first outcome that is not transient, unless budget or attempts end first. */
  function Result<T>(s: Schedule<T>, max: nat): Answer<T> {
    var k := FirstFinal(s, 0, max);
    if Expired(s, max) then Fail(s, max, BUDGET_TEXT)
    else if k == max then Fail(s, max, ExhaustedText(s, max))
    else
      match Nth(s, k)
      case Failed(_, reason) => Fail(s, max, reason)
      case Decoded(Some(m)) => Response(m)
      case Decoded(None) => MissingBody
  }

  // ---------- implementation ----------

  /** The mutex-guarded counters the attempt closure updates. */
  class Counters {
    var attempts: nat
    var firstErr: Option<string>

    constructor ()
      ensures attempts == 0 && firstErr == None
    {
      attempts, firstErr := 0, None;
    }

    method Complete<T>(o: Outcome<T>)
      modifies this
      ensures attempts == old(attempts) + 1
      ensures firstErr == if o.Failed? && old(firstErr).None? then Some(o.reason) else old(firstErr)
    {
      attempts := attempts + 1;
      if o.Failed? && firstErr.None? {
        firstErr := Some(o.reason);
      }
    }
  }

  method WithRetry<T>(s: Schedule<T>, max: nat) returns (answer: Answer<T>, posts: nat)
    ensures answer == Result(s, max)
    ensures posts == Posts(s, max)
  {
    var c := new Counters();
    posts := 0;
    var expired, abandoned := false, false;
    var final: Option<Outcome<T>> := None;
    var lastReason := "";
    var i := 0;
    while i < max && final.None? && !expired
      invariant i <= max && !abandoned && !expired && posts == c.attempts
      invariant final.None? ==> posts == i && forall j | 0 <= j < i :: Transient(Nth(s, j))
      invariant final.Some? ==> i < max && posts == i + 1 && final.value == Nth(s, i) && !Transient(Nth(s, i)) &&
                                forall j | 0 <= j < i :: Transient(Nth(s, j))
      invariant s.budget.Some? ==> i <= s.budget.value || s.budget.value >= max
      invariant final.Some? && s.budget.Some? ==> s.budget.value > i
      invariant final.None? ==> lastReason == if i == 0 then "" else Nth(s, i - 1).reason
      invariant c.firstErr == FirstError(s, c.attempts)
      invariant fresh(c)
      decreases max - i, final.None?, !expired
    {
      if s.budget == Some(i) {
        expired := true;
        if s.inFlight {
          posts := posts + 1;
          abandoned := true;
        }
        break;
      }
      posts := posts + 1;
      var o := Nth(s, i);
      c.Complete(o);
      if Transient(o) {
        lastReason := o.reason;
        i := i + 1;
      } else {
        final := Some(o);
      }
    }
    FirstFinalIs(s, i, max);
    if abandoned && s.late.BeforeSnapshot? {
      c.Complete(Nth(s, i));
    }
    var n, first := c.attempts, c.firstErr;
    if abandoned && s.late.AfterSnapshot? {
      c.Complete(Nth(s, i)); // the answer below is built from the snapshot
    }
    if final.Some? && final.value.Failed? {
      answer := Fault(Cap(WithHistory(final.value.reason, n, first)));
    } else if expired {
      answer := Fault(Cap(WithHistory(BUDGET_TEXT, n, first)));
    } else if final.None? {
      answer := Fault(Cap(WithHistory(EXHAUSTED_PREFIX + lastReason, n, first)));
    } else if final.value.message.None? {
      answer := MissingBody;
    } else {
      answer := Response(final.value.message.value);
    }
  }

  lemma {:induction false} FirstFinalIs<T>(s: Schedule<T>, k: nat, max: nat)
    requires k <= max && forall j | 0 <= j < k :: Transient(Nth(s, j))
    ensures k <= FirstFinal(s, 0, max)
    ensures k == max || !Transient(Nth(s, k)) ==> k == FirstFinal(s, 0, max)
  {
  }

  // ---------- properties ----------

  /** The budget outlasts attempt k: it does not run out before attempt k has completed. */
  predicate Outlasts<T>(s: Schedule<T>, k: nat) {
    s.budget.None? || s.budget.value > k
  }

  /** Never more than max posts: with k the first attempt that is final, or max, the loop posts up to it if
      the budget lasts, and otherwise up to the expiry, with the abandoned attempt if one was in flight. */
  lemma PostCount<T>(s: Schedule<T>, max: nat, k: nat)
    requires k <= max && forall j | 0 <= j < k :: Transient(Nth(s, j))
    requires k == max || !Transient(Nth(s, k))
    ensures Posts(s, max) <= max
    ensures Posts(s, max) ==
              if !Outlasts(s, k) && s.budget.value < max then s.budget.value + (if s.inFlight then 1 else 0)
              else if k < max then k + 1 else max
    ensures k < max && Nth(s, k).Decoded? && Nth(s, k).message.Some? ==>
              (Result(s, max) == Response(Nth(s, k).message.value) <==> Outlasts(s, k))
  {
    FirstFinalIs(s, k, max);
  }

  /** Once more than one attempt was counted, the first error is the one recorded, whatever completes late. */
  lemma HistoryIsRecorded<T>(s: Schedule<T>, max: nat)
    requires Counted(s, max) > 1
    ensures FirstError(s, Counted(s, max)) == Some(Nth(s, 0).reason)
  {
    assert Transient(Nth(s, 0));
  }

  /** An attempt that completes after the counters were read changes neither answer nor post count. */
  lemma LateCompletionIsInvisible<T>(s: Schedule<T>, max: nat)
    ensures Result(s.(late := AfterSnapshot), max) == Result(s.(late := Never), max)
    ensures Posts(s.(late := AfterSnapshot), max) == Posts(s.(late := Never), max)
  {
    SameFinal(s.(late := AfterSnapshot), s.(late := Never), 0, max);
  }

  lemma {:induction false} SameFinal<T>(a: Schedule<T>, b: Schedule<T>, from: nat, max: nat)
    requires a.outcomes == b.outcomes && from <= max
    ensures FirstFinal(a, from, max) == FirstFinal(b, from, max)
    decreases max - from
  {
    if from < max && Transient(Nth(a, from)) {
      SameFinal(a, b, from + 1, max);
    }
  }

  // ---------- error text ----------

  const MAX_ERR_LEN := 1024
  const MAX_FIRST_ERR_LEN := 256

  function Decimal(n: nat): (s: string) {
    (if n < 10 then [] else Decimal(n / 10)) + [('0' as int + n % 10) as char]
  }

  const HISTORY_MIDDLE := " attempts, first error: "

  function CappedFirst(first: string): string {
    if |first| > MAX_FIRST_ERR_LEN then first[..MAX_FIRST_ERR_LEN] + "..." else first
  }

  function HistoryPrefix(attempts: nat, first: Option<string>): string {
    if attempts <= 1 || first.None? then ""
    else Decimal(attempts) + HISTORY_MIDDLE + CappedFirst(first.value) + "; "
  }

  function WithHistory(err: string, attempts: nat, first: Option<string>): string {
    HistoryPrefix(attempts, first) + err
  }

  function Cap(s: string): string {
    if |s| <= MAX_ERR_LEN then s else s[..MAX_ERR_LEN] + "..."
  }

  function Pow10(d: nat): nat {
    if d == 0 then 1 else 10 * Pow10(d - 1)
  }

  lemma {:induction false} DecimalLength(n: nat, d: nat)
    requires 0 < d && n < Pow10(d)
    ensures 0 < |Decimal(n)| <= d
  {
    if n >= 10 {
      assert n / 10 < Pow10(d - 1);
      DecimalLength(n / 10, d - 1);
    }
  }

  const HISTORY_OVERHEAD := 285

  lemma PrefixLength(attempts: nat, first: Option<string>, d: nat)
    requires 0 < d && attempts < Pow10(d)
    ensures |HistoryPrefix(attempts, first)| <= HISTORY_OVERHEAD + d
  {
    DecimalLength(attempts, d);
    assert |HISTORY_MIDDLE| == 24;
  }

  predicate HoldsAt(out: string, cause: string, p: nat, kept: nat) {
    p + kept <= |out| && kept <= |cause| && out[p..p + kept] == cause[..kept]
  }

  /** `out` starts with at most `skip` other bytes and then holds the first `kept` bytes of `cause`. */
  predicate Keeps(out: string, cause: string, skip: nat, kept: nat) {
    exists p | 0 <= p <= skip :: HoldsAt(out, cause, p, kept)
  }

  /** The final cause begins before the cut, and a guaranteed number of its leading bytes survive. */
  lemma CauseSurvives(err: string, attempts: nat, first: Option<string>, d: nat)
    requires 0 < d <= MAX_ERR_LEN - HISTORY_OVERHEAD && attempts < Pow10(d)
    ensures var out := Cap(WithHistory(err, attempts, first));
            && |out| <= MAX_ERR_LEN + 3
            && var room := MAX_ERR_LEN - HISTORY_OVERHEAD - d;
               Keeps(out, err, HISTORY_OVERHEAD + d, if |err| <= room then |err| else room)
  {
    PrefixLength(attempts, first, d);
    var prefix := HistoryPrefix(attempts, first);
    var text := prefix + err;
    var room := MAX_ERR_LEN - HISTORY_OVERHEAD - d;
    var kept := if |err| <= room then |err| else room;
    var out := Cap(text);
    var p := |prefix|;
    assert text[p..p + kept] == err[..kept];
    assert out[..p + kept] == text[..p + kept];
    assert out[p..p + kept] == out[..p + kept][p..];
    assert text[p..p + kept] == text[..p + kept][p..];
    assert HoldsAt(out, err, p, kept);
  }

  lemma PowerOfTen19()
    ensures Pow10(19) == 10_000_000_000_000_000_000
  {
    assert Pow10(5) == 100_000;
    assert Pow10(10) == 10_000_000_000;
    assert Pow10(15) == 1_000_000_000_000_000;
  }

  /** The count is a 64-bit Go int: at least 720 leading bytes of the cause always survive. */
  lemma CauseSurvivesInt64(err: string, attempts: nat, first: Option<string>)
    requires attempts < 0x8000_0000_0000_0000
    ensures Keeps(Cap(WithHistory(err, attempts, first)), err, 304, if |err| <= 720 then |err| else 720)
  {
    PowerOfTen19();
    CauseSurvives(err, attempts, first, 19);
  }

  /** How much of a text survives for any 64-bit count. */
  function Kept(text: string): nat {
    if |text| <= 720 then |text| else 720
  }

  /** A terminal error that ends the loop is in the answer: it begins within the first 304 bytes and up to 720
      bytes of it are there. If the budget runs out first, the answer speaks of the budget alone. */
  lemma TerminalErrorSurvives<T>(s: Schedule<T>, max: nat, k: nat)
    requires k < max < 0x8000_0000_0000_0000
    requires Nth(s, k).Failed? && !Transient(Nth(s, k)) && forall j | 0 <= j < k :: Transient(Nth(s, j))
    ensures Result(s, max).Fault? && |Result(s, max).text| <= MAX_ERR_LEN + 3
    ensures Result(s, max) == Fail(s, max, if Outlasts(s, k) then Nth(s, k).reason else BUDGET_TEXT)
    ensures Outlasts(s, k) ==> Keeps(Result(s, max).text, Nth(s, k).reason, 304, Kept(Nth(s, k).reason))
  {
    FirstFinalIs(s, k, max);
    CauseSurvivesInt64(Nth(s, k).reason, Counted(s, max), FirstError(s, Counted(s, max)));
  }

  /** Exactly when the terminal error is the returned cause: iff the budget outlasts its attempt, or the error
      happens to read like the budget's. */
  lemma TerminalErrorReturnedIff<T>(s: Schedule<T>, max: nat, k: nat)
    requires k < max < 0x8000_0000_0000_0000
    requires Nth(s, k).Failed? && !Transient(Nth(s, k)) && forall j | 0 <= j < k :: Transient(Nth(s, j))
    ensures Result(s, max) == Fail(s, max, Nth(s, k).reason) <==> Outlasts(s, k) || Nth(s, k).reason == BUDGET_TEXT
  {
    TerminalErrorSurvives(s, max, k);
    if !Outlasts(s, k) {
      SameFailSameCause(Nth(s, k).reason, BUDGET_TEXT, Counted(s, max), FirstError(s, Counted(s, max)));
    }
  }

  /** No other cause shares the text of a short one. */
  lemma SameFailSameCause(cause: string, short: string, attempts: nat, first: Option<string>)
    requires attempts < 0x8000_0000_0000_0000 && |short| <= 720
    ensures Cap(WithHistory(cause, attempts, first)) == Cap(WithHistory(short, attempts, first)) <==> cause == short
  {
    PowerOfTen19();
    PrefixLength(attempts, first, 19);
    var prefix := HistoryPrefix(attempts, first);
    assert (prefix + cause)[|prefix|..] == cause && (prefix + short)[|prefix|..] == short;
  }

  lemma HistoryOfTwo()
    ensures HistoryPrefix(2, Some("a")) == "2 attempts, first error: a; "
  {
    assert Decimal(2) == "2" && CappedFirst("a") == "a";
    assert "2" + HISTORY_MIDDLE + "a" + "; " == "2 attempts, first error: a; ";
  }

  /** The terminal error of an abandoned attempt is lost: a 404 is posted and completes, is even counted, and
      the answer does not mention it. */
  lemma AbandonedTerminalErrorIsLost()
    ensures var s: Schedule<int> := Schedule([Failed(500, "a"), Failed(404, "b")], Some(1), true, BeforeSnapshot);
            && Posts(s, 3) == Counted(s, 3) == 2 && !Transient(Nth(s, 1))
            && Result(s, 3) == Fault("2 attempts, first error: a; " + BUDGET_TEXT)
  {
    var s: Schedule<int> := Schedule([Failed(500, "a"), Failed(404, "b")], Some(1), true, BeforeSnapshot);
    FirstFinalIs(s, 1, 3);
    HistoryOfTwo();
  }

  /** Statuses of an outcome the loop tries again after: no response, 408, 429 and 500 to 599. */
  predicate TriedAgain<T>(o: Outcome<T>) {
    o.Failed? && (o.status in {0, 408, 429} || (500 <= o.status && o.status <= 599))
  }

  /** Status by status: after failures without a response, with 408, 429 or 5xx the loop goes on; a decoded
      message is then the answer, and any other status ends it with its own reason. */
  lemma RetriesExactly<T>(s: Schedule<T>, max: nat, k: nat)
    requires k < max < 0x8000_0000_0000_0000 && (s.budget.None? || s.budget.value > k)
    requires forall j | 0 <= j < k :: TriedAgain(Nth(s, j))
    ensures Nth(s, k).Decoded? && Nth(s, k).message.Some? ==>
              Posts(s, max) == k + 1 && Result(s, max) == Response(Nth(s, k).message.value)
    ensures Nth(s, k).Decoded? && Nth(s, k).message.None? ==> Posts(s, max) == k + 1 && Result(s, max) == MissingBody
    ensures Nth(s, k).Failed? && !TriedAgain(Nth(s, k)) ==>
              && Posts(s, max) == k + 1 && |Cap(WithHistory(Nth(s, k).reason, k + 1, Some(Nth(s, 0).reason)))| <= 1027
              && Result(s, max) == Fault(Cap(WithHistory(Nth(s, k).reason, k + 1, Some(Nth(s, 0).reason))))
              && Keeps(Result(s, max).text, Nth(s, k).reason, 304, Kept(Nth(s, k).reason))
  {
    SameStatuses(Nth(s, k));
    forall j | 0 <= j < k ensures Transient(Nth(s, j)) {
      SameStatuses(Nth(s, j));
    }
    if Nth(s, k).Decoded? {
      PostCount(s, max, k);
      FirstFinalIs(s, k, max);
    } else if !TriedAgain(Nth(s, k)) {
      PostCount(s, max, k);
      TerminalErrorSurvives(s, max, k);
    }
  }

  /** When every attempt is tried again, the loop makes max of them and fails with the last one's reason. */
  lemma ExhaustsExactly<T>(s: Schedule<T>, max: nat)
    requires 0 < max < 0x8000_0000_0000_0000 && (s.budget.None? || s.budget.value >= max)
    requires forall j | 0 <= j < max :: TriedAgain(Nth(s, j))
    ensures Posts(s, max) == max && Result(s, max).Fault? && |Result(s, max).text| <= 1027
    ensures Result(s, max) == Fault(Cap(WithHistory(ExhaustedText(s, max), max, Some(Nth(s, 0).reason))))
    ensures var last := ExhaustedText(s, max);
            && last == "all attempts failed: " + Nth(s, max - 1).reason
            && Keeps(Result(s, max).text, last, 304, Kept(last))
  {
    forall j | 0 <= j < max ensures Transient(Nth(s, j)) {
      SameStatuses(Nth(s, j));
    }
    PostCount(s, max, max);
    FirstFinalIs(s, max, max);
    CauseSurvivesInt64(ExhaustedText(s, max), Counted(s, max), FirstError(s, Counted(s, max)));
  }

  lemma SameStatuses<T>(o: Outcome<T>)
    ensures Transient(o) <==> TriedAgain(o)
  {
  }

  // ---------- the text itself ----------

  function ValueOf(digits: string): int {
    if digits == [] then 0 else 10 * ValueOf(digits[..|digits| - 1]) + (digits[|digits| - 1] as int - '0' as int)
  }

  lemma {:induction false} DecimalValue(n: nat)
    ensures ValueOf(Decimal(n)) == n
    ensures forall i | 0 <= i < |Decimal(n)| :: '0' <= Decimal(n)[i] <= '9'
  {
    if n >= 10 {
      DecimalValue(n / 10);
      assert Decimal(n)[..|Decimal(n)| - 1] == Decimal(n / 10);
    } else {
      assert Decimal(n)[..0] == [];
    }
  }

  /** One attempt gives the bare cause; more give the count, the first error and the cause, the first error cut
      at 256 bytes and the whole at 1024. */
  lemma TextExactly(cause: string, attempts: nat, first: string)
    ensures |cause| <= 1024 ==> Cap(WithHistory(cause, 1, Some(first))) == cause
    ensures attempts > 1 ==>
              var shown := if |first| > 256 then first[..256] + "..." else first;
              var text := Decimal(attempts) + " attempts, first error: " + shown + "; " + cause;
              && ValueOf(Decimal(attempts)) == attempts
              && Cap(WithHistory(cause, attempts, Some(first))) == if |text| <= 1024 then text else text[..1024] + "..."
  {
    DecimalValue(attempts);
    if attempts > 1 {
      var shown := if |first| > 256 then first[..256] + "..." else first;
      assert shown == CappedFirst(first);
      assert WithHistory(cause, attempts, Some(first)) ==
             Decimal(attempts) + " attempts, first error: " + shown + "; " + cause;
    } else {
      assert "" + cause == cause;
    }
  }
}
