/** Resumable scanning: a walk over complete frames that may be cut anywhere and resumed at its cursor. */
module Framing {
  import opened Common
  import opened Wire
  import R = Redis
  import P = Postgres

  /** Recognises the frame that begins at a position. */
  type Recognizer = (Bytes, nat) -> Option<Frame>

  /** A frame is non-empty and inside the data. */
  predicate Fits(f: Recognizer, d: Bytes, at: nat) {
    f(d, at).Some? ==> 0 < f(d, at).value.length && at + f(d, at).value.length <= |d|
  }

  /** A complete frame depends only on the bytes from its own start on, and no later byte changes it. */
  predicate Settled(f: Recognizer, a: Bytes, i: nat, b: Bytes, j: nat) {
    Continues(a, i, b, j) && f(a, i).Some? ==> f(b, j) == f(a, i)
  }

  ghost predicate Stable(f: Recognizer) {
    (forall d, at :: Fits(f, d, at)) && (forall a, i, b, j :: Settled(f, a, i, b, j))
  }

  /** A record covers exactly its frame. */
  datatype Record = Record(start: nat, end: nat, material: Material)

  datatype Scanned = Scanned(records: seq<Record>, cursor: nat)

  function RecordOf(at: nat, frame: Frame): seq<Record> {
    if frame.material.Some? then [Record(at, at + frame.length, frame.material.value)] else []
  }

  /** The walk from a cursor: frame after frame until one is incomplete or malformed. */
  function Scan(f: Recognizer, d: Bytes, at: nat): (r: Scanned)
    decreases |d| - at
  {
    if at >= |d| || f(d, at).None? || f(d, at).value.length == 0 then Scanned([], at)
    else
      var rest := Scan(f, d, at + f(d, at).value.length);
      Scanned(RecordOf(at, f(d, at).value) + rest.records, rest.cursor)
  }

  /** The scanners as loops. */
  method ScanFrames(f: Recognizer, data: Bytes) returns (records: seq<Record>, cursor: nat)
    ensures Scanned(records, cursor) == Scan(f, data, 0)
  {
    records, cursor := [], 0;
    while cursor < |data|
      invariant records + Scan(f, data, cursor).records == Scan(f, data, 0).records
                && Scan(f, data, cursor).cursor == Scan(f, data, 0).cursor
      decreases |data| - cursor
    {
      var frame := f(data, cursor);
      if frame.None? || frame.value.length == 0 {
        break;
      }
      AppendAssoc(records, RecordOf(cursor, frame.value), Scan(f, data, cursor + frame.value.length).records);
      records := records + RecordOf(cursor, frame.value);
      cursor := cursor + frame.value.length;
    }
    AppendNil(records);
  }

  lemma {:induction false} ScanBounds(f: Recognizer, d: Bytes, at: nat)
    requires Stable(f) && at <= |d|
    ensures at <= Scan(f, d, at).cursor <= |d|
    decreases |d| - at
  {
    assert Fits(f, d, at);
    if at < |d| && f(d, at).Some? {
      ScanBounds(f, d, at + f(d, at).value.length);
    }
  }

  // ---------------------------------------------------------------- tiling

  predicate IsFrame(f: Recognizer, d: Bytes, from: nat, to: nat) {
    from < |d| && f(d, from).Some? && to == from + f(d, from).value.length && from < to <= |d|
  }

  /** The frames from `at` to `to` follow one another without a gap, and these are their boundaries. */
  ghost predicate Tiled(f: Recognizer, d: Bytes, at: nat, to: nat, cuts: seq<nat>) {
    && |cuts| >= 1 && cuts[0] == at && cuts[|cuts| - 1] == to
    && forall i :: 0 <= i < |cuts| - 1 ==> IsFrame(f, d, cuts[i], cuts[i + 1])
  }

  lemma TileCons(f: Recognizer, d: Bytes, at: nat, next: nat, to: nat, cuts: seq<nat>)
    requires Tiled(f, d, next, to, cuts) && IsFrame(f, d, at, next)
    ensures Tiled(f, d, at, to, [at] + cuts)
  {
    var r := [at] + cuts;
    forall i | 0 <= i < |r| - 1 ensures IsFrame(f, d, r[i], r[i + 1]) {
      if i > 0 {
        assert r[i] == cuts[i - 1] && r[i + 1] == cuts[i];
      }
    }
  }

  predicate Proves(f: Recognizer, d: Bytes, r: Record) {
    f(d, r.start).Some? && f(d, r.start).value.material == Some(r.material)
  }

  /** The record is the frame between two consecutive boundaries. */
  ghost predicate OnCuts(f: Recognizer, d: Bytes, cuts: seq<nat>, r: Record) {
    exists i :: 0 <= i < |cuts| - 1 && cuts[i] == r.start && cuts[i + 1] == r.end && Proves(f, d, r)
  }

  lemma OnCutsCons(f: Recognizer, d: Bytes, at: nat, cuts: seq<nat>, r: Record)
    requires OnCuts(f, d, cuts, r)
    ensures OnCuts(f, d, [at] + cuts, r)
  {
    var i :| 0 <= i < |cuts| - 1 && cuts[i] == r.start && cuts[i + 1] == r.end && Proves(f, d, r);
    assert ([at] + cuts)[i + 1] == cuts[i] && ([at] + cuts)[i + 2] == cuts[i + 1];
  }

  lemma FirstOnCuts(f: Recognizer, d: Bytes, at: nat, cuts: seq<nat>, r: Record)
    requires cuts != [] && IsFrame(f, d, at, cuts[0]) && r in RecordOf(at, f(d, at).value)
    ensures OnCuts(f, d, [at] + cuts, r)
  {
    assert ([at] + cuts)[0] == at && ([at] + cuts)[1] == cuts[0];
  }

  /**
   * Consumed frames tile the consumed region, every record is exactly one of them, and the walk stops
   * only where no complete frame begins: nothing inside a frame is ever read as a frame.
   */
  lemma {:induction false} FramesTile(f: Recognizer, d: Bytes, at: nat) returns (cuts: seq<nat>)
    requires Stable(f) && at <= |d|
    ensures Tiled(f, d, at, Scan(f, d, at).cursor, cuts)
    ensures forall r :: r in Scan(f, d, at).records ==> OnCuts(f, d, cuts, r)
    ensures Scan(f, d, at).cursor == |d| || f(d, Scan(f, d, at).cursor).None?
    decreases |d| - at
  {
    assert Fits(f, d, at);
    if at >= |d| || f(d, at).None? {
      cuts := [at];
    } else {
      var next := at + f(d, at).value.length;
      var rest := FramesTile(f, d, next);
      cuts := [at] + rest;
      TileCons(f, d, at, next, Scan(f, d, next).cursor, rest);
      forall r | r in Scan(f, d, at).records ensures OnCuts(f, d, cuts, r) {
        if r in Scan(f, d, next).records {
          OnCutsCons(f, d, at, rest, r);
        } else {
          FirstOnCuts(f, d, at, rest, r);
        }
      }
    }
  }

  // ---------------------------------------------------------------- resuming

  /** Scanning a prefix and resuming at its cursor is scanning the whole. */
  lemma {:induction false} ScanResumes(f: Recognizer, a: Bytes, b: Bytes, at: nat)
    requires Stable(f) && at <= |a|
    ensures var first := Scan(f, a, at);
            var rest := Scan(f, a + b, first.cursor);
            Scan(f, a + b, at) == Scanned(first.records + rest.records, rest.cursor)
    decreases |a| - at
  {
    assert Fits(f, a, at);
    if at >= |a| || f(a, at).None? {
      AppendNil(Scan(f, a + b, at).records);
    } else {
      ContinuesAppend(a, b, at);
      assert Settled(f, a, at, a + b, at);
      var next := at + f(a, at).value.length;
      ScanResumes(f, a, b, next);
      AppendAssoc(RecordOf(at, f(a, at).value), Scan(f, a, next).records,
                  Scan(f, a + b, Scan(f, a, next).cursor).records);
    }
  }

  function Shift(r: Record, offset: nat): Record { Record(r.start + offset, r.end + offset, r.material) }

  function Shifted(records: seq<Record>, offset: nat): seq<Record> {
    if records == [] then [] else [Shift(records[0], offset)] + Shifted(records[1..], offset)
  }

  function Moved(s: Scanned, offset: nat): Scanned { Scanned(Shifted(s.records, offset), s.cursor + offset) }

  function Preceded(records: seq<Record>, s: Scanned): Scanned { Scanned(records + s.records, s.cursor) }

  lemma ScanStep(f: Recognizer, d: Bytes, at: nat)
    requires at < |d| && f(d, at).Some? && f(d, at).value.length > 0
    ensures Scan(f, d, at) == Preceded(RecordOf(at, f(d, at).value), Scan(f, d, at + f(d, at).value.length))
  {
  }

  lemma MovedPreceded(at: nat, base: nat, frame: Frame, s: Scanned)
    requires base <= at
    ensures Moved(Preceded(RecordOf(at - base, frame), s), base) == Preceded(RecordOf(at, frame), Moved(s, base))
  {
    if frame.material.None? {
      AppendNil(s.records);
      AppendNil(Shifted(s.records, base));
    } else {
      assert (RecordOf(at - base, frame) + s.records)[1..] == s.records;
    }
  }

  lemma RecognizeShifts(f: Recognizer, d: Bytes, base: nat, at: nat)
    requires Stable(f) && base <= at <= |d|
    ensures f(d[base..], at - base) == f(d, at)
  {
    ContinuesSuffix(d, base, at);
    assert Settled(f, d, at, d[base..], at - base);
    assert Settled(f, d[base..], at - base, d, at);
  }

  /** The walk does not depend on where its window begins. */
  lemma {:induction false} ScanShifts(f: Recognizer, d: Bytes, base: nat, at: nat)
    requires Stable(f) && base <= at <= |d|
    ensures Scan(f, d, at) == Moved(Scan(f, d[base..], at - base), base)
    decreases |d| - at
  {
    assert Fits(f, d, at);
    RecognizeShifts(f, d, base, at);
    if at < |d| && f(d, at).Some? {
      var frame := f(d, at).value;
      ScanShifts(f, d, base, at + frame.length);
      ScanStep(f, d, at);
      ScanStep(f, d[base..], at - base);
      MovedPreceded(at, base, frame, Scan(f, d[base..], at + frame.length - base));
    }
  }

  // ---------------------------------------------------------------- any segmentation

  function Flatten(pieces: seq<Bytes>): Bytes {
    if pieces == [] then [] else Flatten(pieces[..|pieces| - 1]) + pieces[|pieces| - 1]
  }

  /** Feeding a stream piece by piece: each time, scan what lies behind the cursor. */
  function Feed(f: Recognizer, pieces: seq<Bytes>): Scanned {
    if pieces == [] then Scanned([], 0)
    else
      var before := Feed(f, pieces[..|pieces| - 1]);
      var now := Scan(f, Flatten(pieces)[Min(before.cursor, |Flatten(pieces)|)..], 0);
      Preceded(before.records, Moved(now, before.cursor))
  }

  /** However the stream is cut, the records and the final cursor are those of one scan of the whole. */
  lemma {:induction false} AnySegmentation(f: Recognizer, pieces: seq<Bytes>)
    requires Stable(f)
    ensures Feed(f, pieces) == Scan(f, Flatten(pieces), 0)
    decreases |pieces|
  {
    if pieces != [] {
      var init := pieces[..|pieces| - 1];
      AnySegmentation(f, init);
      ScanBounds(f, Flatten(init), 0);
      ScanResumes(f, Flatten(init), pieces[|pieces| - 1], 0);
      var c := Feed(f, init).cursor;
      ScanShifts(f, Flatten(pieces), c, c);
    }
  }

  // ---------------------------------------------------------------- the recognisers

  function PostgresRecognizer(auth: Option<nat>): Recognizer { (d: Bytes, at: nat) => P.PostgresFrame(d, at, auth) }

  lemma RedisIsStable()
    ensures Stable(R.RedisFrame)
  {
    forall a, i, b, j ensures Settled(R.RedisFrame, a, i, b, j) {
      if Continues(a, i, b, j) && R.RedisFrame(a, i).Some? {
        R.RedisStable(a, i, b, j);
      }
    }
  }

  lemma PostgresIsStable(auth: Option<nat>)
    ensures Stable(PostgresRecognizer(auth))
  {
    forall a, i, b, j ensures Settled(PostgresRecognizer(auth), a, i, b, j) {
      if Continues(a, i, b, j) && P.PostgresFrame(a, i, auth).Some? {
        P.PostgresStable(a, i, b, j, auth);
      }
    }
  }

  /** Redis records and cursor are the same for every segmentation of the stream. */
  lemma RedisSegmentation(pieces: seq<Bytes>)
    ensures Feed(R.RedisFrame, pieces) == Scan(R.RedisFrame, Flatten(pieces), 0)
  {
    RedisIsStable();
    AnySegmentation(R.RedisFrame, pieces);
  }

  /** So are those of the PostgreSQL frontend, as long as the authentication method does not change. */
  lemma PostgresSegmentation(auth: Option<nat>, pieces: seq<Bytes>)
    ensures Feed(PostgresRecognizer(auth), pieces) == Scan(PostgresRecognizer(auth), Flatten(pieces), 0)
  {
    PostgresIsStable(auth);
    AnySegmentation(PostgresRecognizer(auth), pieces);
  }
}
