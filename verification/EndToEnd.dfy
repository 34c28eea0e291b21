/**
 * From captured packets to findings: chunks produced by TCP reassembly, merged into the detector's
 * window under any cap pressure, are attributed to exactly the packets that supplied their bytes.
 */
module EndToEnd {
  import opened Common
  import opened Spans
  import opened Provenance
  import opened ProvenanceLaws
  import opened ProvenanceQuery
  import opened RetainedWindow
  import opened WindowLaws
  import opened TcpEpoch
  import TcpDirection
  import TcpStream
  import TcpMachine
  import TcpLedger
  import TcpTheorems

  /** What can happen to one direction's window between its creation and its last use. */
  datatype Event =
    | Arrive(chunk: TcpDirection.Chunk)
    | DropSpans(count: nat)   // provenance cap
    | Cut(keep: nat)          // worker-wide byte cap
    | Reset                   // the flow was evicted

  const EMPTY_WINDOW := Retained(0, [], [])

  function Apply(w: Retained, e: Event, overlap: nat): Retained {
    match e
    case Arrive(c) => Merge(w, Island(c), overlap).window
    case DropSpans(n) => Forget(w, Min(n, |w.spans|))
    case Cut(n) => if |w.data| > n then CutTo(w, n) else w
    case Reset => EMPTY_WINDOW
  }

  ghost predicate IsHistory(events: seq<Event>, windows: seq<Retained>, overlap: nat) {
    && |windows| == |events| + 1
    && windows[0] == EMPTY_WINDOW
    && forall i: nat {:trigger Stepped(events, windows, overlap, i)} ::
         i < |events| ==> Stepped(events, windows, overlap, i)
  }

  ghost predicate Stepped(events: seq<Event>, windows: seq<Retained>, overlap: nat, i: nat)
    requires i < |events| && |windows| == |events| + 1
  {
    windows[i + 1] == Apply(windows[i], events[i], overlap)
  }

  // ---------------------------------------------------------------- honesty

  /** The attribution of `p` is complete and names the packets that supplied the byte there. */
  ghost predicate TrueAt(f: Supply, p: int, ids: seq<nat>, complete: bool) {
    complete && f(p).Some? && ids == Dedup(TcpDirection.IdsOf(f(p).value.src))
  }

  ghost predicate SpansTrue(spans: seq<Span>, f: Supply) {
    forall p, x, k :: Says(spans, p, x, k) ==> TrueAt(f, p, x, k)
  }

  /** Every byte and every attribution is what the packets supplied. */
  ghost predicate Honest(w: Retained, f: Supply) {
    RetainedOk(w) && BytesFrom(w.data, f, w.base) && SpansTrue(w.spans, f)
  }

  /** Every retained position is attributed. */
  ghost predicate Attributed(w: Retained) { forall p :: Between(p, w.base, w.End()) ==> Spoken(w.spans, p) }

  lemma IslandHonest(c: TcpDirection.Chunk, f: Supply)
    requires TcpStream.ChunkOk(c, f)
    ensures Honest(Island(c), f) && Attributed(Island(c))
  {
    ChunkSpansShape(c.offset, |c.data|, c.ids, c.spans);
    var r := ChunkSpans(c.offset, |c.data|, c.ids, c.spans);
    forall p, x, k | Says(r, p, x, k) ensures TrueAt(f, p, x, k) {
      ChunkSpansSays(c.offset, |c.data|, c.ids, c.spans, p, x, k);
      SuppliedTrue(c.spans, f, p, c.ids, x, k);
    }
    forall p | Between(p, c.offset, c.End()) ensures Spoken(r, p) {
      IslandSpoken(c, f, p);
    }
  }

  lemma SuppliedTrue(spans: seq<Span>, f: Supply, p: int, fallback: seq<nat>, x: seq<nat>, k: bool)
    requires SpansFrom(spans, f) && Spoken(spans, p) && Filled(spans, p, fallback, x, k)
    ensures TrueAt(f, p, x, k)
  {
    var s :| s in spans && TellsOne(s, p, x, k);
    var i :| 0 <= i < |spans| && spans[i] == s;
    assert SpanFrom(spans[i], f);
  }

  lemma IslandSpoken(c: TcpDirection.Chunk, f: Supply, p: int)
    requires TcpStream.ChunkOk(c, f) && Between(p, c.offset, c.End())
    ensures Spoken(ChunkSpans(c.offset, |c.data|, c.ids, c.spans), p)
  {
    var r := ChunkSpans(c.offset, |c.data|, c.ids, c.spans);
    assert Spoken(c.spans, p);
    var i :| 0 <= i < |c.spans| && c.spans[i].Holds(p);
    var s := c.spans[i];
    assert TellsOne(s, p, Dedup(s.ids), s.complete) && s in c.spans;
    assert Tells(c.spans, p, Dedup(s.ids), s.complete);
    ChunkSpansSays(c.offset, |c.data|, c.ids, c.spans, p, Dedup(s.ids), s.complete);
    SaysSpoken(r, p);
  }

  // ---------------------------------------------------------------- merging keeps honesty

  lemma SaidTrue(w: Retained, c: Retained, f: Supply, p: int, x: seq<nat>, k: bool)
    requires SpansTrue(w.spans, f) && SpansTrue(c.spans, f) && Said(w, c, p, x, k)
    ensures TrueAt(f, p, x, k)
  {
  }

  lemma MergeSpansTrue(w: Retained, c: Retained, overlap: nat, f: Supply)
    requires RetainedOk(w) && RetainedOk(c) && SpansTrue(w.spans, f) && SpansTrue(c.spans, f)
    ensures SpansTrue(Merge(w, c, overlap).scan.spans, f) && SpansTrue(Merge(w, c, overlap).window.spans, f)
  {
    var m := Merge(w, c, overlap);
    forall p, x, k | Says(m.scan.spans, p, x, k) ensures TrueAt(f, p, x, k) {
      MergeSays(w, c, overlap, p, x, k);
      SaidTrue(w, c, f, p, x, k);
    }
    forall p, x, k | Says(m.window.spans, p, x, k) ensures TrueAt(f, p, x, k) {
      MergeSays(w, c, overlap, p, x, k);
      if Absorbed(w, c) {
        SaidTrue(w, c, f, p, x, k);
      }
    }
  }

  lemma ByteTrue(w: Retained, f: Supply, p: int, b: Byte)
    requires BytesFrom(w.data, f, w.base) && HasByte(w, p, b)
    ensures ByteIs(f, p, b)
  {
    assert ByteIs(f, w.base + (p - w.base), w.data[p - w.base]);
  }

  lemma ShownByteTrue(scan: Retained, w: Retained, c: Retained, f: Supply, p: int, b: Byte)
    requires BytesFrom(w.data, f, w.base) && BytesFrom(c.data, f, c.base)
    requires ShowsByte(scan, w, c, p, b) && HasByte(scan, p, b)
    ensures ByteIs(f, p, b)
  {
    if Between(p, c.base, c.End()) {
      ByteTrue(c, f, p, b);
    } else {
      ByteTrue(w, f, p, b);
    }
  }

  lemma ScanBytesTrue(w: Retained, c: Retained, overlap: nat, f: Supply, scan: Retained)
    requires BytesFrom(w.data, f, w.base) && BytesFrom(c.data, f, c.base)
    requires forall p, b :: ShowsByte(scan, w, c, p, b)
    ensures BytesFrom(scan.data, f, scan.base)
  {
    forall j | 0 <= j < |scan.data| ensures ByteIs(f, scan.base + j, scan.data[j]) {
      assert ShowsByte(scan, w, c, scan.base + j, scan.data[j]) && HasByte(scan, scan.base + j, scan.data[j]);
      ShownByteTrue(scan, w, c, f, scan.base + j, scan.data[j]);
    }
  }

  lemma TailTrue(window: Retained, view: Retained, f: Supply)
    requires IsTail(window, view) && BytesFrom(view.data, f, view.base)
    ensures BytesFrom(window.data, f, window.base)
  {
    forall k | 0 <= k < |window.data| ensures ByteIs(f, window.base + k, window.data[k]) {
      assert window.data[k] == view.data[window.base - view.base + k];
    }
  }

  lemma Unmoved(w: Retained, c: Retained, overlap: nat)
    requires RetainedOk(w) && RetainedOk(c) && !Absorbed(w, c)
    ensures Merge(w, c, overlap).window == w
  {
    MergeSays(w, c, overlap, 0, [], false);
  }

  lemma ScanShows(w: Retained, c: Retained, overlap: nat)
    requires RetainedOk(w) && RetainedOk(c)
    ensures forall p, b :: ShowsByte(Merge(w, c, overlap).scan, w, c, p, b)
  {
    forall p, b ensures ShowsByte(Merge(w, c, overlap).scan, w, c, p, b) {
      MergeBytes(w, c, overlap, p, b);
    }
  }

  lemma WindowFollows(w: Retained, c: Retained, overlap: nat)
    requires RetainedOk(w) && RetainedOk(c)
    ensures Merge(w, c, overlap).window == w || IsTail(Merge(w, c, overlap).window, Merge(w, c, overlap).scan)
  {
    if Absorbed(w, c) {
      MergeBytes(w, c, overlap, 0, 0);
    } else {
      Unmoved(w, c, overlap);
    }
  }

  lemma BytesFollow(window: Retained, scan: Retained, w: Retained, f: Supply)
    requires BytesFrom(w.data, f, w.base) && BytesFrom(scan.data, f, scan.base) && (window == w || IsTail(window, scan))
    ensures BytesFrom(window.data, f, window.base)
  {
    if window != w {
      TailTrue(window, scan, f);
    }
  }

  lemma MergeHonest(w: Retained, c: Retained, overlap: nat, f: Supply)
    requires Honest(w, f) && Honest(c, f)
    ensures Honest(Merge(w, c, overlap).scan, f) && Honest(Merge(w, c, overlap).window, f)
  {
    MergeShape(w, c, overlap);
    MergeSpansTrue(w, c, overlap, f);
    ScanShows(w, c, overlap);
    ScanBytesTrue(w, c, overlap, f, Merge(w, c, overlap).scan);
    WindowFollows(w, c, overlap);
    BytesFollow(Merge(w, c, overlap).window, Merge(w, c, overlap).scan, w, f);
  }

  // ---------------------------------------------------------------- merging keeps full attribution

  lemma SaidSpoken(w: Retained, c: Retained, view: Retained, p: int)
    requires if Between(p, c.base, c.End()) then Spoken(c.spans, p) else Spoken(w.spans, p)
    requires Between(p, view.base, view.End())
    requires forall x, k :: Says(view.spans, p, x, k) <==> Between(p, view.base, view.End()) && Said(w, c, p, x, k)
    ensures Spoken(view.spans, p)
  {
    var spans := if Between(p, c.base, c.End()) then c.spans else w.spans;
    var i :| 0 <= i < |spans| && spans[i].Holds(p);
    assert Says(spans, p, spans[i].ids, spans[i].complete);
    assert Said(w, c, p, spans[i].ids, spans[i].complete);
    assert Says(view.spans, p, spans[i].ids, spans[i].complete);
  }

  lemma ScanAttributed(w: Retained, c: Retained, overlap: nat, p: int)
    requires RetainedOk(w) && RetainedOk(c) && Attributed(w) && Attributed(c)
    requires Between(p, Merge(w, c, overlap).scan.base, Merge(w, c, overlap).scan.End())
    ensures if Between(p, c.base, c.End()) then Spoken(c.spans, p) else Spoken(w.spans, p)
    ensures Spoken(Merge(w, c, overlap).scan.spans, p)
  {
    var scan := Merge(w, c, overlap).scan;
    MergeBytes(w, c, overlap, p, scan.data[p - scan.base]);
    assert HasByte(scan, p, scan.data[p - scan.base]);
    forall x, k ensures Says(scan.spans, p, x, k) <==> Between(p, scan.base, scan.End()) && Said(w, c, p, x, k) {
      MergeSays(w, c, overlap, p, x, k);
    }
    SaidSpoken(w, c, scan, p);
  }

  lemma WindowAttributed(w: Retained, c: Retained, overlap: nat, p: int)
    requires RetainedOk(w) && RetainedOk(c) && Attributed(w) && Attributed(c) && Absorbed(w, c)
    requires Between(p, Merge(w, c, overlap).window.base, Merge(w, c, overlap).window.End())
    ensures Spoken(Merge(w, c, overlap).window.spans, p)
  {
    var window := Merge(w, c, overlap).window;
    MergeBytes(w, c, overlap, p, 0);
    ScanAttributed(w, c, overlap, p);
    forall x, k ensures Says(window.spans, p, x, k) <==> Between(p, window.base, window.End()) && Said(w, c, p, x, k) {
      MergeSays(w, c, overlap, p, x, k);
    }
    SaidSpoken(w, c, window, p);
  }

  lemma MergeAttributed(w: Retained, c: Retained, overlap: nat)
    requires RetainedOk(w) && RetainedOk(c) && Attributed(w) && Attributed(c)
    ensures Attributed(Merge(w, c, overlap).scan) && Attributed(Merge(w, c, overlap).window)
  {
    var m := Merge(w, c, overlap);
    forall p | Between(p, m.scan.base, m.scan.End()) ensures Spoken(m.scan.spans, p) {
      ScanAttributed(w, c, overlap, p);
    }
    if Absorbed(w, c) {
      forall p | Between(p, m.window.base, m.window.End()) ensures Spoken(m.window.spans, p) {
        WindowAttributed(w, c, overlap, p);
      }
    } else {
      Unmoved(w, c, overlap);
    }
  }

  lemma CutHonest(w: Retained, n: nat, f: Supply)
    requires Honest(w, f)
    ensures Honest(CutTo(w, n), f)
    ensures Attributed(w) ==> Attributed(CutTo(w, n))
  {
    var r := CutTo(w, n);
    CutOk(w, n);
    TailTrue(r, w, f);
    forall p, x, k ensures Says(r.spans, p, x, k) <==> Between(p, r.base, w.End()) && Says(w.spans, p, x, k) {
      CutSays(w, n, p, x, k);
    }
    if Attributed(w) {
      forall p | Between(p, r.base, r.End()) ensures Spoken(r.spans, p) {
        SaysSpoken(w.spans, p);
        SaysSpoken(r.spans, p);
      }
    }
  }

  lemma ForgetHonest(w: Retained, n: nat, f: Supply)
    requires Honest(w, f) && n <= |w.spans|
    ensures Honest(Forget(w, n), f)
  {
    ForgetOk(w, n, 0, [], false);
    forall p, x, k | Says(Forget(w, n).spans, p, x, k) ensures TrueAt(f, p, x, k) {
      ForgetOk(w, n, p, x, k);
    }
  }

  // ---------------------------------------------------------------- whole histories

  ghost predicate ChunksTrue(events: seq<Event>, f: Supply) {
    forall i :: 0 <= i < |events| && events[i].Arrive? ==> TcpStream.ChunkOk(events[i].chunk, f)
  }

  lemma ArriveHonest(w: Retained, c: TcpDirection.Chunk, overlap: nat, f: Supply)
    requires Honest(w, f) && TcpStream.ChunkOk(c, f)
    ensures Honest(Merge(w, Island(c), overlap).window, f) && Honest(Merge(w, Island(c), overlap).scan, f)
    ensures Attributed(w) ==>
            Attributed(Merge(w, Island(c), overlap).window) && Attributed(Merge(w, Island(c), overlap).scan)
  {
    IslandHonest(c, f);
    MergeHonest(w, Island(c), overlap, f);
    if Attributed(w) {
      MergeAttributed(w, Island(c), overlap);
    }
  }

  lemma ApplyHonest(w: Retained, e: Event, overlap: nat, f: Supply)
    requires Honest(w, f) && (e.Arrive? ==> TcpStream.ChunkOk(e.chunk, f))
    ensures Honest(Apply(w, e, overlap), f)
    ensures Attributed(w) && !e.DropSpans? ==> Attributed(Apply(w, e, overlap))
  {
    match e
    case Arrive(c) => ArriveHonest(w, c, overlap, f);
    case DropSpans(n) => ForgetHonest(w, Min(n, |w.spans|), f);
    case Cut(n) => CutHonest(w, n, f);
    case Reset =>
  }

  /** Honest, and fully attributed if `kept`. */
  ghost predicate Good(w: Retained, f: Supply, kept: bool) { Honest(w, f) && (kept ==> Attributed(w)) }

  predicate Unpressed(events: seq<Event>, n: nat)
    requires n <= |events|
  {
    forall i :: 0 <= i < n ==> !events[i].DropSpans?
  }

  lemma StepGood(w: Retained, e: Event, overlap: nat, f: Supply, kept: bool, next: Retained)
    requires Good(w, f, kept) && (e.Arrive? ==> TcpStream.ChunkOk(e.chunk, f)) && next == Apply(w, e, overlap)
    ensures Good(next, f, kept && !e.DropSpans?)
  {
    ApplyHonest(w, e, overlap, f);
  }

  lemma StartGood(f: Supply, kept: bool)
    ensures Good(EMPTY_WINDOW, f, kept)
  {
  }

  lemma HistoryStep(events: seq<Event>, windows: seq<Retained>, overlap: nat, f: Supply, n: nat)
    requires |windows| == |events| + 1 && n < |events| && Stepped(events, windows, overlap, n) && ChunksTrue(events, f)
    requires Good(windows[n], f, Unpressed(events, n))
    ensures Good(windows[n + 1], f, Unpressed(events, n + 1))
  {
    StepGood(windows[n], events[n], overlap, f, Unpressed(events, n), windows[n + 1]);
    assert Unpressed(events, n + 1) <==> Unpressed(events, n) && !events[n].DropSpans?;
  }

  /** However chunks, trims and evictions alternate, the window holds only true bytes and attributions. */
  lemma {:induction false} HistoryHonest(events: seq<Event>, windows: seq<Retained>, overlap: nat, f: Supply, n: nat)
    requires IsHistory(events, windows, overlap) && ChunksTrue(events, f) && n < |windows|
    ensures Good(windows[n], f, Unpressed(events, n))
    decreases n
  {
    if n == 0 {
      StartGood(f, Unpressed(events, 0));
    } else {
      HistoryHonest(events, windows, overlap, f, n - 1);
      assert Stepped(events, windows, overlap, n - 1);
      HistoryStep(events, windows, overlap, f, n - 1);
    }
  }

  /** What the scanners see when event `n` arrives, with `dropped` of its oldest spans already evicted. */
  function ViewAt(events: seq<Event>, windows: seq<Retained>, overlap: nat, n: nat, dropped: nat): Retained
    requires n < |events| && n < |windows| && events[n].Arrive?
  {
    var scan := Merge(windows[n], Island(events[n].chunk), overlap).scan;
    Forget(scan, Min(dropped, |scan.spans|))
  }

  lemma ViewHonest(events: seq<Event>, windows: seq<Retained>, overlap: nat, f: Supply, n: nat, dropped: nat)
    requires IsHistory(events, windows, overlap) && ChunksTrue(events, f) && n < |events| && events[n].Arrive?
    ensures Good(ViewAt(events, windows, overlap, n, dropped), f, dropped == 0 && Unpressed(events, n))
  {
    HistoryHonest(events, windows, overlap, f, n);
    ArriveHonest(windows[n], events[n].chunk, overlap, f);
    var scan := Merge(windows[n], Island(events[n].chunk), overlap).scan;
    ForgetHonest(scan, Min(dropped, |scan.spans|), f);
    ForgetNothing(scan);
  }

  lemma ForgetNothing(w: Retained)
    ensures Forget(w, 0) == w
  {
    assert w.spans[0..] == w.spans;
  }

  // ---------------------------------------------------------------- the attribution of a finding

  /** The packets that supplied some byte of the range. */
  ghost predicate Supplied(f: Supply, from: int, to: int, x: nat) {
    exists p :: from <= p < to && SuppliedAt(f, p, x)
  }

  ghost predicate SuppliedAt(f: Supply, p: int, x: nat) { f(p).Some? && x in TcpDirection.IdsOf(f(p).value.src) }

  lemma VouchedTrue(w: Retained, f: Supply, p: int)
    requires Honest(w, f)
    ensures Vouched(w.spans, p) <==> Spoken(w.spans, p)
    ensures Vouched(w.spans, p) ==>
            Between(p, w.base, w.End()) && HasByte(w, p, w.data[p - w.base]) && ByteIs(f, p, w.data[p - w.base])
  {
    if Spoken(w.spans, p) {
      var i :| 0 <= i < |w.spans| && w.spans[i].Holds(p);
      assert Says(w.spans, p, w.spans[i].ids, w.spans[i].complete);
      assert TrueAt(f, p, w.spans[i].ids, w.spans[i].complete);
      ByteTrue(w, f, p, w.data[p - w.base]);
    }
  }

  lemma NamedIsSupplied(w: Retained, f: Supply, from: int, to: int, x: nat)
    requires Honest(w, f) && from < to && Covered(w.spans, from, to)
    ensures x in Named(w.spans, from, to) <==> Supplied(f, from, to, x)
  {
    NamedMeans(w.spans, from, to, x);
    if i, p :| 0 <= i < |w.spans| && from <= p < to && w.spans[i].Holds(p) && x in w.spans[i].ids {
      assert Says(w.spans, p, w.spans[i].ids, w.spans[i].complete);
      assert TrueAt(f, p, w.spans[i].ids, w.spans[i].complete);
      assert SuppliedAt(f, p, x);
    }
    if Supplied(f, from, to, x) {
      var p :| from <= p < to && SuppliedAt(f, p, x);
      assert Vouched(w.spans, p);
      var i :| 0 <= i < |w.spans| && w.spans[i].Holds(p) && w.spans[i].complete;
      assert Says(w.spans, p, w.spans[i].ids, true);
      assert TrueAt(f, p, w.spans[i].ids, true);
    }
  }

  /** The answer names exactly the packets that supplied the range, and shows their bytes. */
  ghost predicate Proven(a: Attribution, view: Retained, f: Supply, from: int, to: int) {
    && (forall p :: from <= p < to ==> Between(p, view.base, view.End()) && ByteIs(f, p, view.data[p - view.base]))
    && (forall x :: x in a.ids <==> Supplied(f, from, to, x))
  }

  lemma CompleteIsProven(view: Retained, f: Supply, from: int, to: int, fallback: seq<nat>, limit: nat)
    requires Honest(view, f)
    ensures var a := Attribute(view.spans, from, to, fallback, true, limit);
            a.complete ==> from < to && Proven(a, view, f, from, to)
  {
    var a := Attribute(view.spans, from, to, fallback, true, limit);
    AttributeOk(view.spans, from, to, fallback, true, limit);
    if a.complete {
      forall p | from <= p < to ensures Between(p, view.base, view.End()) && ByteIs(f, p, view.data[p - view.base]) {
        assert Vouched(view.spans, p);
        VouchedTrue(view, f, p);
      }
      forall x ensures x in a.ids <==> Supplied(f, from, to, x) {
        if x >= 0 {
          NamedIsSupplied(view, f, from, to, x);
          assert x in IdSet(a.ids) <==> x in a.ids;
        }
      }
    }
  }

  /**
   * End to end, over every run of the reassembler and every history of one direction's window: an
   * attribution reported complete is non-empty, every byte it covers is the byte of the first packet
   * that covered its position, and the packets it names are exactly the packets that supplied them.
   */
  lemma CompleteFindingsAreExact(L: TcpMachine.Limits, epochNamespace: nat, calls: seq<TcpTheorems.Call>,
                                 worlds: seq<TcpTheorems.World>,
                                 w: nat, e: nat, s: TcpDirection.Side, events: seq<Event>, windows: seq<Retained>,
                                 overlap: nat,
                                 n: nat, dropped: nat, from: int, to: int, fallback: seq<nat>, limit: nat)
    requires 1 <= L.maxFlows && TcpTheorems.IsRun(L, epochNamespace, calls, worlds) && w < |worlds|
    requires IsHistory(events, windows, overlap) && n < |events| && events[n].Arrive?
    requires forall i :: 0 <= i < |events| && events[i].Arrive? ==>
             events[i].chunk in TcpLedger.ChunksOf(worlds[w].log.out, e, s)
    ensures var view := ViewAt(events, windows, overlap, n, dropped);
            var a := Attribute(view.spans, from, to, fallback, true, limit);
            a.complete ==> from < to && Proven(a, view, TcpLedger.ViewOf(worlds[w].log, e, s), from, to)
  {
    var f := TcpLedger.ViewOf(worlds[w].log, e, s);
    RunChunksTrue(L, epochNamespace, calls, worlds, w, e, s, events);
    ViewHonest(events, windows, overlap, f, n, dropped);
    CompleteIsProven(ViewAt(events, windows, overlap, n, dropped), f, from, to, fallback, limit);
  }

  lemma RunChunksTrue(L: TcpMachine.Limits, epochNamespace: nat, calls: seq<TcpTheorems.Call>,
                      worlds: seq<TcpTheorems.World>,
                      w: nat, e: nat, s: TcpDirection.Side, events: seq<Event>)
    requires 1 <= L.maxFlows && TcpTheorems.IsRun(L, epochNamespace, calls, worlds) && w < |worlds|
    requires forall i :: 0 <= i < |events| && events[i].Arrive? ==>
             events[i].chunk in TcpLedger.ChunksOf(worlds[w].log.out, e, s)
    ensures ChunksTrue(events, TcpLedger.ViewOf(worlds[w].log, e, s))
  {
    TcpTheorems.RunOk(L, epochNamespace, calls, worlds, w);
    assert TcpLedger.PastAt(worlds[w].log, e, s);
    TcpLedger.PastMeans(worlds[w].log, e, s);
  }

  /**
   * The converse: while no span was dropped for a cap, every range inside the view is attributed
   * completely unless no packet, or too many packets, would have to be listed.
   */
  lemma UnpressedIsComplete(events: seq<Event>, windows: seq<Retained>, overlap: nat, f: Supply, n: nat,
                            from: int, to: int, fallback: seq<nat>, limit: nat)
    requires IsHistory(events, windows, overlap) && ChunksTrue(events, f) && n < |events| && events[n].Arrive?
    requires Unpressed(events, n)
    requires var view := ViewAt(events, windows, overlap, n, 0); view.base <= from < to <= view.End()
    ensures var view := ViewAt(events, windows, overlap, n, 0);
            Attribute(view.spans, from, to, fallback, true, limit).complete
            <==> Named(view.spans, from, to) != {} && |Named(view.spans, from, to)| <= limit
  {
    var view := ViewAt(events, windows, overlap, n, 0);
    ViewHonest(events, windows, overlap, f, n, 0);
    forall p | from <= p < to ensures Vouched(view.spans, p) {
      VouchedTrue(view, f, p);
    }
    AttributeOk(view.spans, from, to, fallback, true, limit);
  }
}
