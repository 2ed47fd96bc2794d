/**
 Where generations go: every generation that was ever current is, at all times, exactly one of
 current, in history, reclaimed, or erased by the probe, but for what a pass over an outdated copy
 overwrites or brings back; and history keeps its order.
 */
module LedgerAccounts {
  import opened Wrappers
  import opened Status
  import opened Cas
  import opened Naming
  import opened LedgerRuns

  function LastOf<T>(s: seq<T>, n: nat): seq<T> {
    if n <= |s| then s[|s| - n..] else s
  }

  /** What has come into the ledger, and what has left it. */
  datatype Books = Books(
    served: multiset<Generation>,
    reclaimed: multiset<Generation>,
    erased: multiset<Generation>,
    overwritten: multiset<Generation>,
    restored: multiset<Generation>)

  const EMPTY_BOOKS := Books(multiset{}, multiset{}, multiset{}, multiset{}, multiset{})

  function Sum(a: Books, b: Books): Books {
    Books(a.served + b.served, a.reclaimed + b.reclaimed, a.erased + b.erased,
          a.overwritten + b.overwritten, a.restored + b.restored)
  }

  function Remainder(copy: Ledger, keep: nat): seq<Generation> {
    if keep <= |copy.history| then copy.history[..keep] else copy.history
  }

  /** The entry of one step: a generation becomes current; the retention policy drops the oldest; the probe
      erases the current one, unless it already is a blank; a remainder takes the place of a history. */
  function Entry(w: World, e: Event): Books {
    match e
    case Settle(gen, drop, _) =>
      EMPTY_BOOKS.(served := if gen.Some? then multiset{gen.value} else multiset{},
                   reclaimed := multiset(LastOf(Advanced(w.ledger, gen).history, drop)))
    case ProbeErase(_) =>
      if w.ledger.current.Some? && w.ledger.current.value.fingerprint != ""
      then EMPTY_BOOKS.(erased := multiset{w.ledger.current.value}) else EMPTY_BOOKS
    case Rewrite(_, copy, keep, _) =>
      var before, after := multiset(w.ledger.history), multiset(Remainder(copy, keep));
      EMPTY_BOOKS.(overwritten := before - after, restored := after - before)
    case _ => EMPTY_BOOKS
  }

  function Account(ws: seq<World>, es: seq<Event>, n: nat): Books
    requires n <= |es| && n <= |ws|
  {
    if n == 0 then EMPTY_BOOKS else Sum(Account(ws, es, n - 1), Entry(ws[n - 1], es[n - 1]))
  }

  /** What is held, reclaimed, erased and overwritten after is what was held before, and what became
      current or was brought back since. */
  predicate Balanced(before: multiset<Generation>, a: Books, after: multiset<Generation>) {
    after + a.reclaimed + a.erased + a.overwritten == before + a.served + a.restored
  }

  predicate Deleting(e: Event) {
    e.Cleanup? || e.StaleCleanup? || e.Release? || (e.CloudDelete? && e.swept)
  }

  predicate Kept(es: seq<Event>) {
    forall i :: 0 <= i < |es| ==> !Deleting(es[i])
  }

  /** Every generation that was ever current is in exactly one place. */
  lemma {:induction false} Conservation(o: Owner, ws: seq<World>, es: seq<Event>, n: nat)
    requires Run(o, ws, es) && n <= |es|
    requires forall i :: 0 <= i < n ==> !Deleting(es[i])
    ensures Balanced(multiset(Held(ws[0].ledger)), Account(ws, es, n), multiset(Held(ws[n].ledger)))
  {
    if n > 0 {
      Conservation(o, ws, es, n - 1);
      RunInv(o, ws, es, n - 1);
      StepConserves(o, es[n - 1], ws[n - 1], ws[n]);
      hide Account, Run, Held, Balanced;
      Balance(multiset(Held(ws[0].ledger)), Account(ws, es, n - 1), multiset(Held(ws[n - 1].ledger)),
              multiset(Held(ws[n].ledger)), Entry(ws[n - 1], es[n - 1]));
    }
  }

  lemma Balance(start: multiset<Generation>, a: Books, held: multiset<Generation>, next: multiset<Generation>, d: Books)
    requires Balanced(start, a, held) && Balanced(held, d, next)
    ensures Balanced(start, Sum(a, d), next)
  {
    var b := Sum(a, d);
    forall x ensures (next + b.reclaimed + b.erased + b.overwritten)[x] == (start + b.served + b.restored)[x] {
      assert (held + a.reclaimed + a.erased + a.overwritten)[x] == (start + a.served + a.restored)[x];
      assert (next + d.reclaimed + d.erased + d.overwritten)[x] == (held + d.served + d.restored)[x];
    }
  }

  lemma StepConserves(o: Owner, e: Event, w: World, v: World)
    requires Inv(o, w) && Step(o, e, w, v) && !Deleting(e)
    ensures Balanced(multiset(Held(w.ledger)), Entry(w, e), multiset(Held(v.ledger)))
  {
    hide Inv, External, PendingOk, RecordOk, NameTaken, Committed, Edited, Sole, Records, RestGone, LastOf, Balanced;
    hide Held;
    match e {
      case Settle(gen, drop, probedAt) => SettleConserves(w.ledger, gen, drop, probedAt);
      case ProbeErase(probedAt) => EraseConserves(w.ledger, probedAt);
      case Rewrite(_, copy, keep, probedAt) => RewriteConserves(w.ledger, Remainder(copy, keep), probedAt);
      case _ =>
        SameHeld(w.ledger, v.ledger);
        NothingMoves(multiset(Held(w.ledger)));
    }
  }

  lemma NothingMoves(m: multiset<Generation>)
    ensures Balanced(m, EMPTY_BOOKS, m)
  {
  }

  lemma SameHeld(l: Ledger, m: Ledger)
    requires l.current == m.current && l.history == m.history
    ensures Held(l) == Held(m)
  {
  }

  lemma EraseConserves(l: Ledger, probedAt: Option<int>)
    requires l.current.Some?
    ensures var g, m := l.current.value, l.(current := Some(Blanked(l.current.value)), casProbedAt := probedAt);
            Balanced(multiset(Held(l)), if g.fingerprint != "" then EMPTY_BOOKS.(erased := multiset{g}) else EMPTY_BOOKS,
                     multiset(Held(m)))
  {
    var m := l.(current := Some(Blanked(l.current.value)), casProbedAt := probedAt);
    if l.current.value.fingerprint != "" { assert Held(l) == [l.current.value] + Held(m); } else { assert Held(l) == Held(m); }
  }

  lemma RewriteConserves(l: Ledger, h: seq<Generation>, probedAt: Option<int>)
    ensures var before, after := multiset(l.history), multiset(h);
            Balanced(multiset(Held(l)), EMPTY_BOOKS.(overwritten := before - after, restored := after - before),
                     multiset(Held(l.(history := h, casProbedAt := probedAt))))
  {
    var front := Held(l.(history := []));
    assert Held(l) == front + l.history && Held(l.(history := h, casProbedAt := probedAt)) == front + h;
  }

  lemma SettleConserves(l: Ledger, gen: Option<Generation>, drop: nat, probedAt: Option<int>)
    requires drop <= |Advanced(l, gen).history|
    requires gen.Some? ==> gen.value.fingerprint != ""
    ensures Balanced(multiset(Held(l)),
                     EMPTY_BOOKS.(served := if gen.Some? then multiset{gen.value} else multiset{},
                                  reclaimed := multiset(LastOf(Advanced(l, gen).history, drop))),
                     multiset(Held(Settled(l, gen, drop, probedAt))))
  {
    var h := Advanced(l, gen).history;
    var k := |h| - drop;
    assert h == h[..k] + h[k..];
    if gen.Some? {
      assert Held(Settled(l, gen, drop, probedAt)) == [gen.value] + h[..k];
    } else {
      var front := Held(l.(history := []));
      assert Held(l) == front + h;
      assert Held(Settled(l, gen, drop, probedAt)) == front + h[..k];
    }
  }

  // ----- where a held generation comes from -----

  /** The same upload; deletion may have cleared the id since. */
  predicate SameIssue(g: Generation, h: Generation) {
    h == g || h == g.(certId := None)
  }

  predicate Issues(e: Event, g: Generation) {
    e.Settle? && e.gen.Some? && SameIssue(e.gen.value, g)
  }

  predicate Among(h: seq<Generation>, g: Generation) {
    exists i :: 0 <= i < |h| && SameIssue(h[i], g)
  }

  predicate HeldBy(l: Ledger, g: Generation) {
    (l.current.Some? && l.current.value.fingerprint != "" && SameIssue(l.current.value, g)) || Among(l.history, g)
  }

  /** Nothing is held that did not become current in some earlier step of the run, however often a copy
      that had fallen behind was written back. */
  lemma {:induction false} HeldWasServed(o: Owner, ws: seq<World>, es: seq<Event>, n: nat, g: Generation)
    requires Run(o, ws, es) && n < |ws| && HeldBy(ws[n].ledger, g)
    ensures HeldBy(ws[0].ledger, g) || exists i :: 0 <= i < n && Issues(es[i], g)
    decreases n
  {
    if n > 0 {
      var e, w := es[n - 1], ws[n - 1];
      StepOf(o, ws, es, n - 1);
      StepOrigin(o, e, w, ws[n], g);
      hide Run, Step, HeldBy, Issues;
      if Issues(e, g) {
      } else if HeldBy(w.ledger, g) {
        HeldWasServed(o, ws, es, n - 1, g);
      } else {
        HeldWasServed(o, ws, es, e.at, g);
      }
    }
  }

  lemma StepOrigin(o: Owner, e: Event, w: World, v: World, g: Generation)
    requires Step(o, e, w, v) && HeldBy(v.ledger, g)
    ensures Issues(e, g) || HeldBy(w.ledger, g) || (FromCopy(e) && HeldBy(e.copy, g))
  {
    hide Consistent, External, NameTaken, Committed, Edited, RestGone, RecordOk, Sole, Among;
    match e {
      case Settle(gen, drop, probedAt) => SettleOrigin(w.ledger, gen, drop, probedAt, g);
      case Cleanup(l) => AmongCleared(w.cas, w.ledger.history, l.history, g);
      case Rewrite(_, copy, keep, probedAt) => AmongFirst(copy.history, keep, g);
      case StaleCleanup(_, copy, l) =>
        if l.history != w.ledger.history { AmongCleared(w.cas, copy.history, l.history, g); }
      case _ =>
    }
  }

  lemma SettleOrigin(l: Ledger, gen: Option<Generation>, drop: nat, probedAt: Option<int>, g: Generation)
    requires drop <= |Advanced(l, gen).history| && HeldBy(Settled(l, gen, drop, probedAt), g)
    ensures (gen.Some? && SameIssue(gen.value, g)) || HeldBy(l, g)
  {
    var h := Advanced(l, gen).history;
    AmongFirst(h, |h| - drop, g);
    if gen.Some? && Among(h, g) {
      var i :| 0 <= i < |h| && SameIssue(h[i], g);
      if i >= |h| - |l.history| { assert h[i] == l.history[i - (|h| - |l.history|)]; }
    }
  }

  lemma AmongFirst(h: seq<Generation>, keep: nat, g: Generation)
    requires keep <= |h|
    ensures Among(h[..keep], g) ==> Among(h, g)
  {
    if Among(h[..keep], g) {
      var i :| 0 <= i < keep && SameIssue(h[..keep][i], g);
      assert SameIssue(h[i], g);
    }
  }

  lemma AmongCleared(s: CasState, h: seq<Generation>, k: seq<Generation>, g: Generation)
    requires Clears(s, h, k)
    ensures Among(k, g) ==> Among(h, g)
  {
    if Among(k, g) {
      var i :| 0 <= i < |k| && SameIssue(k[i], g);
      assert ClearedOrKept(s, h[i], k[i]) && SameIssue(h[i], g);
    }
  }

  // ----- order -----

  /** Newest first. */
  predicate Sorted(s: seq<Generation>) {
    forall i, j :: 0 <= i < j < |s| ==> s[j].uploadedAt <= s[i].uploadedAt
  }

  /** When the last generation became current. */
  function Latest(es: seq<Event>, n: nat, start: int): int
    requires n <= |es|
  {
    if n == 0 then start
    else if es[n - 1].Settle? && es[n - 1].gen.Some? then es[n - 1].gen.value.uploadedAt
    else Latest(es, n - 1, start)
  }

  /** The clock does not run backwards from one upload to the next. */
  predicate Chronological(es: seq<Event>, start: int) {
    forall i :: 0 <= i < |es| && es[i].Settle? && es[i].gen.Some? ==> Latest(es, i, start) <= es[i].gen.value.uploadedAt
  }

  predicate UpTo(h: seq<Generation>, t: int) {
    Sorted(h) && forall i :: 0 <= i < |h| ==> h[i].uploadedAt <= t
  }

  /** The history newest first, with nothing later than t, and the current generation of that very time. */
  predicate Aged(l: Ledger, t: int) {
    UpTo(l.history, t) && (l.current.Some? && l.current.value.fingerprint != "" ==> l.current.value.uploadedAt == t)
  }

  lemma {:induction false} LatestGrows(es: seq<Event>, start: int, i: nat, n: nat)
    requires Chronological(es, start) && i <= n <= |es|
    ensures Latest(es, i, start) <= Latest(es, n, start)
  {
    if i < n { LatestGrows(es, start, i, n - 1); }
  }

  /** With a clock that does not run backwards, current and history are newest first at all times, even
      where a history was taken from a copy that had fallen behind. */
  lemma HistoryStaysOrdered(o: Owner, ws: seq<World>, es: seq<Event>, start: int, n: nat)
    requires Run(o, ws, es) && n < |ws| && Chronological(es, start) && Aged(ws[0].ledger, start)
    ensures Sorted(Held(ws[n].ledger))
  {
    hide Run, Chronological;
    StaysAged(o, ws, es, start, n);
  }

  lemma {:induction false} StaysAged(o: Owner, ws: seq<World>, es: seq<Event>, start: int, n: nat)
    requires Run(o, ws, es) && n < |ws| && Chronological(es, start) && Aged(ws[0].ledger, start)
    ensures n <= |es| && Aged(ws[n].ledger, Latest(es, n, start))
    decreases n
  {
    if n > 0 {
      StepOf(o, ws, es, n - 1);
      var e, w, t := es[n - 1], ws[n - 1], Latest(es, n - 1, start);
      assert e.Settle? && e.gen.Some? ==> t <= e.gen.value.uploadedAt;
      hide Run, Step, Sorted, Chronological, Held, Aged, UpTo;
      StaysAged(o, ws, es, start, n - 1);
      if FromCopy(e) {
        StaysAged(o, ws, es, start, e.at);
        LatestGrows(es, start, e.at, n - 1);
        OlderUpTo(e.copy, Latest(es, e.at, start), t);
      }
      StepKeepsOrder(o, e, w, ws[n], t);
    }
  }

  lemma OlderUpTo(l: Ledger, t: int, u: int)
    requires Aged(l, t) && t <= u
    ensures UpTo(l.history, u)
  {
  }

  lemma StepKeepsOrder(o: Owner, e: Event, w: World, v: World, t: int)
    requires Step(o, e, w, v) && Aged(w.ledger, t)
    requires FromCopy(e) ==> UpTo(e.copy.history, t)
    requires e.Settle? && e.gen.Some? ==> t <= e.gen.value.uploadedAt
    ensures Aged(v.ledger, if e.Settle? && e.gen.Some? then e.gen.value.uploadedAt else t)
  {
    hide Consistent, External, NameTaken, Committed, Edited, RestGone, RecordOk, Sole;
    match e {
      case Settle(gen, drop, probedAt) => SettleKeepsOrder(w.ledger, gen, drop, t);
      case Cleanup(l) => ClearedUpTo(w.cas, w.ledger.history, l.history, t);
      case StaleCleanup(_, copy, l) =>
        if l.history != w.ledger.history { ClearedUpTo(w.cas, copy.history, l.history, t); }
      case _ =>
    }
  }

  lemma ClearedUpTo(s: CasState, h: seq<Generation>, k: seq<Generation>, t: int)
    requires Clears(s, h, k) && UpTo(h, t)
    ensures UpTo(k, t)
  {
    forall i | 0 <= i < |k| ensures k[i].uploadedAt == h[i].uploadedAt { assert ClearedOrKept(s, h[i], k[i]); }
  }

  lemma SettleKeepsOrder(l: Ledger, gen: Option<Generation>, drop: nat, t: int)
    requires drop <= |Advanced(l, gen).history| && Aged(l, t)
    requires gen.Some? ==> t <= gen.value.uploadedAt
    ensures var h := Advanced(l, gen).history; UpTo(h[..|h| - drop], if gen.Some? then gen.value.uploadedAt else t)
  {
  }

  /** Two generations whose certificates are in the cloud share an id exactly when their fingerprints
      agree in the part the names are made of. Distinct ids therefore rest on fingerprints that never
      come back: one that does is found under its old name, and claims the old id. */
  lemma SameIdIffSamePrefix(o: Owner, w: World, g: Generation, h: Generation)
    requires Inv(o, w) && RecordOk(o, w.cas, g) && RecordOk(o, w.cas, h)
    requires g.certId.Some? && g.certId.value in w.cas.certs && h.certId.Some? && h.certId.value in w.cas.certs
    ensures g.certId == h.certId <==> Take(g.fingerprint, FP_SUFFIX_LEN) == Take(h.fingerprint, FP_SUFFIX_LEN)
  {
    SameNameIffSamePrefix(o.crName, g.fingerprint, h.fingerprint);
    var i, j := g.certId.value, h.certId.value;
    assert i in w.cas.certs && w.cas.certs[i].name == g.casName;
    assert j in w.cas.certs && w.cas.certs[j].name == h.casName;
  }

  /** Gone from the cloud or not, different fingerprints have different ids. */
  lemma DistinctIds(o: Owner, s: CasState, g: Generation, h: Generation)
    requires RecordOk(o, s, g) && RecordOk(o, s, h) && g.certId.Some?
    requires Take(g.fingerprint, FP_SUFFIX_LEN) != Take(h.fingerprint, FP_SUFFIX_LEN)
    ensures g.certId != h.certId
  {
    SameNameIffSamePrefix(o.crName, g.fingerprint, h.fingerprint);
  }
}
