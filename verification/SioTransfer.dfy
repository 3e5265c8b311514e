/** The cyclic transfer of one SIO channel: what each region run under the transfer lock does to it.

    A `u64` bitmap is the set of its bit positions, so `x | 1 << p` is `x + {p}` and `x & !(1 << p)` is
    `x - {p}`; periods are below 64, which keeps every shift in range. */
module SioTransfer {
  import opened Arithmetic

  const DESC_SLOTS := 64
  const MAX_INFLIGHT := 4

  /** `acked` and `reported` are history variables: how many ISSUEs were acknowledged and how many reports
      were accepted since the ring was last reset. Nothing the driver does reads them. */
  datatype Transfer = Transfer(
    periodLen: nat,
    bufferLen: nat,
    slots: seq<nat>,
    nextIssue: nat,
    nextReport: nat,
    inflight: nat,
    pending: bool,
    committed: set<nat>,
    issued: set<nat>,
    terminated: bool,
    generation: nat,
    acked: nat,
    reported: nat)

  function Fresh(periodLen: nat, slots: seq<nat>, generation: nat): Transfer {
    Transfer(periodLen, |slots| * periodLen, slots, 0, 0, 0, false, {}, {}, false, generation, 0, 0)
  }

  /** The next period in ring order may be handed to firmware. */
  predicate CanIssue(t: Transfer) {
    t.inflight < MAX_INFLIGHT && t.nextIssue in t.committed && t.nextIssue !in t.issued
  }

  predicate Claimable(t: Transfer, generation: nat) {
    t.generation == generation && !t.terminated && !t.pending && CanIssue(t)
  }

  function Claim(t: Transfer, generation: nat): Transfer {
    if Claimable(t, generation) then t.(pending := true) else t
  }

  function Undo(t: Transfer, generation: nat): Transfer {
    if t.generation == generation then t.(pending := false, terminated := true) else t
  }

  function Ack(t: Transfer): Transfer
    requires |t.slots| > 0
  {
    t.(pending := false,
       issued := t.issued + {t.nextIssue},
       nextIssue := (t.nextIssue + 1) % |t.slots|,
       inflight := t.inflight + 1,
       acked := t.acked + 1)
  }

  function Nack(t: Transfer): Transfer {
    t.(pending := false, terminated := true)
  }

  datatype ReportOutcome = Unexpected | Mismatch | Completed

  function Outcome(t: Transfer): ReportOutcome {
    if t.inflight == 0 then Unexpected
    else if t.nextReport !in t.committed || t.nextReport !in t.issued then Mismatch
    else Completed
  }

  function Report(t: Transfer): Transfer
    requires |t.slots| > 0
  {
    match Outcome(t)
    case Unexpected => t
    case Mismatch => t.(terminated := true)
    case Completed =>
      t.(inflight := t.inflight - 1,
         nextReport := (t.nextReport + 1) % |t.slots|,
         committed := t.committed - {t.nextReport},
         issued := t.issued - {t.nextReport},
         reported := t.reported + 1)
  }

  datatype CommitError = BadOffset | PeriodBusy | Accepted

  /** What queueing the period at `byteOffset` answers. */
  function CommitAnswer(t: Transfer, byteOffset: nat): CommitError {
    if t.periodLen == 0 || byteOffset % t.periodLen != 0 || byteOffset >= t.bufferLen then BadOffset
    else if byteOffset / t.periodLen in t.committed then PeriodBusy
    else Accepted
  }

  function Commit(t: Transfer, byteOffset: nat): Transfer
    requires CommitAnswer(t, byteOffset) == Accepted
  {
    t.(committed := t.committed + {byteOffset / t.periodLen})
  }

  function Restarted(t: Transfer): Transfer {
    t.(terminated := false)
  }

  predicate NeedsTerminate(t: Transfer, running: bool) {
    running || t.terminated || t.inflight != 0 || t.pending
  }

  function Reset(t: Transfer, generation: nat): Transfer {
    t.(nextIssue := 0, nextReport := 0, inflight := 0, pending := false, committed := {}, issued := {},
       terminated := false, generation := generation, acked := 0, reported := 0)
  }

  // ---- The ring the fields stand for ----

  /** The periods of the issues numbered from `r` up to but not including `a`. */
  ghost function Window(r: nat, a: nat, n: nat): set<nat>
    requires n > 0
  {
    set k | r <= k < a :: k % n
  }

  /** Cursors, count and bitmaps all describe the same run of issues `reported .. acked`. */
  ghost predicate Ring(t: Transfer) {
    var n := |t.slots|;
    && 0 < n <= DESC_SLOTS
    && t.periodLen > 0
    && t.bufferLen == n * t.periodLen
    && t.reported <= t.acked
    && t.inflight == t.acked - t.reported
    && t.inflight <= MAX_INFLIGHT
    && t.inflight <= n
    && t.nextIssue == t.acked % n
    && t.nextReport == t.reported % n
    && t.issued == Window(t.reported, t.acked, n)
    && t.issued <= t.committed
    && (forall p :: p in t.committed ==> p < n)
  }

  lemma ModStep(a: nat, n: nat)
    requires n > 0
    ensures (a % n + 1) % n == (a + 1) % n
  {
    var q, r := a / n, a % n;
    assert a == q * n + r;
    if r + 1 == n {
      assert a + 1 == (q + 1) * n + 0;
      SmallMod(q + 1, 0, n);
      SmallMod(1, 0, n);
    } else {
      SmallMod(q, r + 1, n);
      SmallMod(0, r + 1, n);
    }
  }

  /** Two issues less than a ring apart never use the same period. */
  lemma ModDistinct(a: nat, b: nat, n: nat)
    requires n > 0 && a < b < a + n
    ensures a % n != b % n
  {
    if a % n == b % n {
      var qa, qb := a / n, b / n;
      assert b - a == (qb - qa) * n;
      if qb - qa >= 1 { MulMono(1, qb - qa, n); }
      else { MulMono(0, qa - qb, n); }
    }
  }

  lemma WindowGrows(r: nat, a: nat, n: nat)
    requires n > 0 && r <= a
    ensures Window(r, a + 1, n) == Window(r, a, n) + {a % n}
  {
    forall p | p in Window(r, a, n) + {a % n} ensures p in Window(r, a + 1, n) {
      if p == a % n {
        assert r <= a < a + 1;
      } else {
        var k :| r <= k < a && p == k % n;
        assert r <= k < a + 1;
      }
    }
  }

  lemma WindowShrinks(r: nat, a: nat, n: nat)
    requires n > 0 && r < a <= r + n
    ensures Window(r + 1, a, n) == Window(r, a, n) - {r % n}
  {
    forall p | p in Window(r + 1, a, n) ensures p in Window(r, a, n) - {r % n} {
      var k :| r + 1 <= k < a && p == k % n;
      ModDistinct(r, k, n);
      assert r <= k < a;
    }
    forall p | p in Window(r, a, n) - {r % n} ensures p in Window(r + 1, a, n) {
      var k :| r <= k < a && p == k % n;
      assert r + 1 <= k < a;
    }
  }

  lemma FullWindow(r: nat, n: nat)
    requires n > 0
    ensures (r + n) % n in Window(r, r + n, n)
  {
    var q := r / n;
    assert r + n == (q + 1) * n + r % n;
    SmallMod(q + 1, r % n, n);
    assert r <= r < r + n;
    assert r % n in Window(r, r + n, n);
  }

  /** A free next period means the ring is not full. */
  lemma RoomToIssue(t: Transfer)
    requires Ring(t) && t.nextIssue !in t.issued
    ensures t.inflight < |t.slots|
  {
    FullWindow(t.reported, |t.slots|);
  }

  lemma FreshRing(periodLen: nat, slots: seq<nat>, generation: nat)
    requires periodLen > 0 && 0 < |slots| <= DESC_SLOTS
    ensures Ring(Fresh(periodLen, slots, generation))
  {
  }

  /** Acknowledging the issue in progress keeps the ring, and the acknowledged issue is the next in order. */
  lemma AckKeepsRing(t: Transfer)
    requires Ring(t) && CanIssue(t)
    ensures Ring(Ack(t))
  {
    var n := |t.slots|;
    RoomToIssue(t);
    ModStep(t.acked, n);
    WindowGrows(t.reported, t.acked, n);
  }

  /** In a ring a report never finds its bits missing, and retires the oldest issue. */
  lemma ReportKeepsRing(t: Transfer)
    requires Ring(t)
    ensures Outcome(t) != Mismatch
    ensures Ring(Report(t))
    ensures CanIssue(t) ==> CanIssue(Report(t))
  {
    var n := |t.slots|;
    if t.inflight > 0 {
      assert t.reported % n in Window(t.reported, t.acked, n);
      ModStep(t.reported, n);
      WindowShrinks(t.reported, t.acked, n);
    }
  }

  /** Queueing keeps the ring and commits a period firmware does not own. */
  lemma CommitKeepsRing(t: Transfer, byteOffset: nat)
    requires Ring(t) && CommitAnswer(t, byteOffset) == Accepted
    ensures Ring(Commit(t, byteOffset))
    ensures CanIssue(t) ==> CanIssue(Commit(t, byteOffset))
    ensures byteOffset / t.periodLen < |t.slots| && byteOffset / t.periodLen !in t.issued
  {
    var n, p := |t.slots|, byteOffset / t.periodLen;
    if p >= n { MulMono(n, p, t.periodLen); }
  }

  /** Accepted exactly for the start of a period that is not already committed. */
  lemma CommitAcceptedIff(t: Transfer, byteOffset: nat)
    requires Ring(t)
    ensures CommitAnswer(t, byteOffset) == Accepted <==>
            exists p: nat :: p < |t.slots| && byteOffset == p * t.periodLen && p !in t.committed
  {
    var n, q := |t.slots|, byteOffset / t.periodLen;
    if CommitAnswer(t, byteOffset) == Accepted {
      CommitKeepsRing(t, byteOffset);
      assert byteOffset == q * t.periodLen;
    }
    if p: nat :| p < n && byteOffset == p * t.periodLen && p !in t.committed {
      SmallMod(p, 0, t.periodLen);
      MulMono(p + 1, n, t.periodLen);
    }
  }

  lemma ResetKeepsRing(t: Transfer, generation: nat)
    requires Ring(t)
    ensures Ring(Reset(t, generation)) && !Reset(t, generation).pending
  {
  }
}
