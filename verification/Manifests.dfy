/** The run manifest: keyframe policies, record pointers, and what `validate` demands of them. */
module Manifests {
  import opened Json
  import opened Ordering
  import opened Jcs

  const KVP_VERSION := "0.1"
  const SCHEMA_VERSION := "1"
  const ALLOWED_CHANNELS: set<string> := {"WORLD", "AGENTS", "ITEMS", "EVENTS", "DEBUG"}

  datatype MsgType = FullSnapshot | FrameDiff | KernelHello

  datatype Pointer = Pointer(
    id: string, path: string, msgType: MsgType,
    tick: Option<int>, from: Option<int>, to: Option<int>, sha: Option<string>)

  datatype Manifest = Manifest(
    kvpVersion: string, schemaVersion: string, start: int, end: int, channels: seq<string>,
    interval: Option<int>, ticks: Option<seq<int>>,
    snapshots: map<int, Pointer>, diffs: map<int, Pointer>, integrity: map<string, string>)

  // ---- Record paths ----

  // `f"{t:010d}"`: padded with zeros to ten characters, the sign counted.
  function Pad(n: nat, width: nat): string {
    var d := Digits(n);
    Zeros(if width > |d| then width - |d| else 0) + d
  }

  function TickText(t: int): string { if t < 0 then "-" + Pad(-t, 9) else Pad(t, 10) }

  function SnapshotPath(t: int): string { "state/snapshots/tick_" + TickText(t) + ".kvp.json" }

  function DiffPath(t: int): string {
    "state/diffs/from_" + TickText(t) + "_to_" + TickText(t + 1) + ".kvp.json"
  }

  lemma PadShape(n: nat, width: nat)
    ensures AllDigits(Pad(n, width)) && Pad(n, width) != []
  {
    DigitsShape(n);
  }

  lemma ZeroAlone(p: nat, q: nat, n: nat)
    requires Zeros(p) + Digits(0) == Zeros(q) + Digits(n)
    ensures n == 0
  {
    DigitsShape(n);
    var s := Zeros(q) + Digits(n);
    assert forall i :: 0 <= i < |s| ==> s[i] == '0' by { assert s == Zeros(p) + "0"; }
    assert s[q] == Digits(n)[0];
  }

  lemma PadInjective(m: nat, n: nat, width: nat)
    requires Pad(m, width) == Pad(n, width)
    ensures m == n
  {
    var p, q := |Pad(m, width)| - |Digits(m)|, |Pad(n, width)| - |Digits(n)|;
    if m == 0 {
      ZeroAlone(p, q, n);
    } else if n == 0 {
      ZeroAlone(q, p, m);
    } else {
      LeadingZerosInjective(p, m, q, n);
    }
  }

  predicate IsTickChar(c: char) { IsDigitChar(c) || c == '-' }

  lemma TickTextShape(t: int)
    ensures forall i :: 0 <= i < |TickText(t)| ==> IsTickChar(TickText(t)[i])
    ensures TickText(t) != [] && (TickText(t)[0] == '-' <==> t < 0)
  {
    PadShape(if t < 0 then -t else t, if t < 0 then 9 else 10);
  }

  lemma TickTextInjective(s: int, t: int)
    requires TickText(s) == TickText(t)
    ensures s == t
  {
    TickTextShape(s);
    TickTextShape(t);
    if s < 0 {
      assert Pad(-s, 9) == TickText(s)[1..] == TickText(t)[1..] == Pad(-t, 9);
      PadInjective(-s, -t, 9);
    } else {
      PadInjective(s, t, 10);
    }
  }

  // A tick between a fixed beginning and text that starts with another character.
  lemma TickInPath(head: string, s: int, t: int, x: string, y: string)
    requires head + (TickText(s) + x) == head + (TickText(t) + y)
    requires x != [] && y != [] && !IsTickChar(x[0]) && !IsTickChar(y[0])
    ensures s == t
  {
    var a, b := TickText(s) + x, TickText(t) + y;
    assert a == (head + a)[|head|..] && b == (head + b)[|head|..];
    TickTextShape(s);
    TickTextShape(t);
    MaximalRun(TickText(s), x, TickText(t), y, IsTickChar);
    TickTextInjective(s, t);
  }

  lemma SnapshotPathInjective(s: int, t: int)
    requires SnapshotPath(s) == SnapshotPath(t)
    ensures s == t
  {
    var head, tail := "state/snapshots/tick_", ".kvp.json";
    assert SnapshotPath(s) == head + (TickText(s) + tail) && SnapshotPath(t) == head + (TickText(t) + tail);
    TickInPath(head, s, t, tail, tail);
  }

  lemma DiffPathInjective(s: int, t: int)
    requires DiffPath(s) == DiffPath(t)
    ensures s == t
  {
    var head, mid, tail := "state/diffs/from_", "_to_", ".kvp.json";
    RegroupPath(head, TickText(s), mid, TickText(s + 1), tail);
    RegroupPath(head, TickText(t), mid, TickText(t + 1), tail);
    TickInPath(head, s, t, mid + TickText(s + 1) + tail, mid + TickText(t + 1) + tail);
  }

  lemma RegroupPath(a: string, b: string, c: string, d: string, e: string)
    requires c != []
    ensures a + b + c + d + e == a + (b + (c + d + e)) && (c + d + e)[0] == c[0]
  {
  }

  lemma CharInHead(head: string, a: string, b: string, i: nat)
    requires i < |head|
    ensures (head + a + b)[i] == head[i]
  {
  }

  lemma SnapshotIsNotDiff(s: int, t: int)
    ensures SnapshotPath(s) != DiffPath(t)
  {
    var tail := "_to_" + TickText(t + 1) + ".kvp.json";
    CharInHead("state/snapshots/tick_", TickText(s), ".kvp.json", 6);
    RegroupPath("state/diffs/from_", TickText(t), "_to_", TickText(t + 1), ".kvp.json");
    CharInHead("state/diffs/from_", "", TickText(t) + tail, 6);
  }

  /** No two records share a path, however many digits their ticks have. */
  lemma PathsDistinct(s: int, t: int)
    ensures SnapshotPath(s) == SnapshotPath(t) <==> s == t
    ensures DiffPath(s) == DiffPath(t) <==> s == t
    ensures SnapshotPath(s) != DiffPath(t)
  {
    if SnapshotPath(s) == SnapshotPath(t) { SnapshotPathInjective(s, t); }
    if DiffPath(s) == DiffPath(t) { DiffPathInjective(s, t); }
    SnapshotIsNotDiff(s, t);
  }

  // The number a text of decimal digits spells.
  function NumberOf(s: string): nat
    requires AllDigits(s)
  {
    if s == "" then 0 else 10 * NumberOf(s[..|s| - 1]) + (s[|s| - 1] as int - '0' as int)
  }

  lemma {:induction false} DigitsRead(n: nat)
    ensures AllDigits(Digits(n)) && NumberOf(Digits(n)) == n
  {
    DigitsShape(n);
    if n >= 10 {
      DigitsRead(n / 10);
      assert Digits(n)[..|Digits(n)| - 1] == Digits(n / 10);
    }
  }

  lemma {:induction false} PaddedReads(k: nat, s: string)
    requires AllDigits(s)
    ensures AllDigits(Zeros(k) + s) && NumberOf(Zeros(k) + s) == NumberOf(s)
    decreases k + |s|
  {
    if s != "" {
      PaddedReads(k, s[..|s| - 1]);
      assert (Zeros(k) + s)[..|Zeros(k) + s| - 1] == Zeros(k) + s[..|s| - 1];
    } else if k > 0 {
      PaddedReads(k - 1, "");
      assert (Zeros(k) + "")[..|Zeros(k) + ""| - 1] == Zeros(k - 1) + "";
    } else {
      assert Zeros(0) + "" == "";
    }
  }

  lemma PadReads(n: nat, width: nat)
    requires width > 1
    ensures var text := Pad(n, width);
      && |text| >= width && AllDigits(text) && NumberOf(text) == n && (|text| > width ==> text[0] != '0')
  {
    DigitsShape(n);
    DigitsRead(n);
    PaddedReads(if width > |Digits(n)| then width - |Digits(n)| else 0, Digits(n));
    if |Digits(n)| >= width { assert Pad(n, width) == Digits(n); }
  }

  /** A tick is spelled in ten characters or, where it needs more, without padding, and reads back as itself. */
  lemma TickTextReads(t: int)
    ensures var text := TickText(t); var digits := if t < 0 then text[1..] else text;
      && |text| >= 10 && AllDigits(digits) && NumberOf(digits) == (if t < 0 then -t else t)
      && (t < 0 ==> text[0] == '-') && (|text| > 10 ==> digits[0] != '0')
  {
    hide Pad, NumberOf;
    PadReads(if t < 0 then -t else t, if t < 0 then 9 else 10);
    assert t < 0 ==> TickText(t)[1..] == Pad(-t, 9);
  }

  // ---- Keyframes ----

  // start, start + k, ... up to end.
  function Every(k: int, start: int, end: int): seq<int>
    requires k >= 1
    decreases end - start
  {
    if start > end then [] else [start] + Every(k, start + k, end)
  }

  /** The i-th keyframe is i intervals after the start, and there is one for every i that fits. */
  lemma {:induction false} EveryAt(k: int, start: int, end: int, i: nat)
    requires k >= 1
    ensures i < |Every(k, start, end)| <==> start + i * k <= end
    ensures i < |Every(k, start, end)| ==> Every(k, start, end)[i] == start + i * k
    decreases i
  {
    if i > 0 {
      assert start + i * k == start + k + (i - 1) * k;
      EveryAt(k, start + k, end, i - 1);
      assert i * k >= k;
    }
  }

  /** `while t <= end: ticks.append(t); t += k`. */
  method IntervalTicks(k: int, start: int, end: int) returns (ticks: seq<int>)
    requires k >= 1
    ensures ticks == Every(k, start, end)
  {
    ticks := [];
    var t := start;
    while t <= end
      invariant ticks + Every(k, t, end) == Every(k, start, end)
      decreases end - t
    {
      ticks := ticks + [t];
      t := t + k;
    }
  }

  // The given ticks inside the window, deduplicated, ascending, with the start put in front.
  function Normalized(ticks: seq<int>, start: int, end: int): seq<int> {
    var bounded := Ascending((set t | t in ticks && start <= t <= end));
    if start in bounded then bounded else [start] + bounded
  }

  function Keyframes(interval: Option<int>, ticks: Option<seq<int>>, start: int, end: int): seq<int>
    requires interval.Some? ==> interval.value >= 1
  {
    if ticks.Some? then Normalized(ticks.value, start, end)
    else Every(if interval.Some? then interval.value else 1, start, end)
  }

  ghost predicate Within(s: seq<int>, start: int, end: int) { forall i :: 0 <= i < |s| ==> start <= s[i] <= end }

  lemma {:induction false} EveryAscends(k: int, start: int, end: int)
    requires k >= 1
    ensures Ascends(Every(k, start, end)) && Within(Every(k, start, end), start, end)
    decreases end - start
  {
    if start <= end {
      EveryAscends(k, start + k, end);
      ConsAscendsInt(start, Every(k, start + k, end));
    }
  }

  lemma LeastIsFirst(s: seq<int>, least: int)
    requires Ascends(s) && least in s && forall i :: 0 <= i < |s| ==> least <= s[i]
    ensures s[0] == least
  {
    var i :| 0 <= i < |s| && s[i] == least;
    assert s[0] <= s[i];
  }

  lemma NormalizedAscends(ticks: seq<int>, start: int, end: int)
    requires start <= end
    ensures var ks := Normalized(ticks, start, end);
      Ascends(ks) && ks != [] && ks[0] == start && Within(ks, start, end)
  {
    var s := set t | t in ticks && start <= t <= end;
    var bounded := Ascending(s);
    AscendingAscends(s);
    assert Within(bounded, start, end) by {
      forall i | 0 <= i < |bounded| ensures start <= bounded[i] <= end { assert bounded[i] in s; }
    }
    if start in bounded {
      LeastIsFirst(bounded, start);
    } else {
      assert forall i :: 0 <= i < |bounded| ==> bounded[i] != start;
      ConsAscendsInt(start, bounded);
    }
  }

  /** Under every policy the keyframes ascend inside the window and begin with the start. */
  lemma KeyframesAscend(interval: Option<int>, ticks: Option<seq<int>>, start: int, end: int)
    requires (interval.Some? ==> interval.value >= 1) && start <= end
    ensures var ks := Keyframes(interval, ticks, start, end);
      Ascends(ks) && ks != [] && ks[0] == start && Within(ks, start, end)
  {
    if ticks.Some? {
      NormalizedAscends(ticks.value, start, end);
    } else {
      EveryAscends(if interval.Some? then interval.value else 1, start, end);
    }
  }

  lemma NormalizedExactly(ticks: seq<int>, start: int, end: int, t: int)
    ensures t in Normalized(ticks, start, end) <==> t == start || (t in ticks && start <= t <= end)
  {
    var bounded := Ascending((set u | u in ticks && start <= u <= end));
    assert t in bounded <==> t in ticks && start <= t <= end;
  }

  // The tick i intervals after the start.
  predicate Lands(k: int, start: int, i: nat, t: int) { t == start + i * k }

  lemma EveryExactly(k: int, start: int, end: int, t: int)
    requires k >= 1
    ensures t in Every(k, start, end) <==> t <= end && exists i: nat :: Lands(k, start, i, t)
  {
    if t in Every(k, start, end) {
      var i :| 0 <= i < |Every(k, start, end)| && Every(k, start, end)[i] == t;
      EveryAt(k, start, end, i);
      assert Lands(k, start, i, t);
    }
    if t <= end && exists i: nat :: Lands(k, start, i, t) {
      var i: nat :| Lands(k, start, i, t);
      EveryAt(k, start, end, i);
    }
  }

  /**
   The keyframes of a window: the start and every listed tick inside it, or without a list
   every tick a whole number of intervals after the start, each tick if there is no interval either.
   */
  lemma KeyframesExactly(interval: Option<int>, ticks: Option<seq<int>>, start: int, end: int, t: int)
    requires interval.Some? ==> interval.value >= 1
    ensures t in Keyframes(interval, ticks, start, end) <==>
      if ticks.Some? then t == start || (t in ticks.value && start <= t <= end)
      else if interval.Some? then t <= end && exists i: nat :: Lands(interval.value, start, i, t)
      else start <= t <= end
  {
    if ticks.Some? { NormalizedExactly(ticks.value, start, end, t); }
    else { EveryExactly(if interval.Some? then interval.value else 1, start, end, t); }
    if start <= t { assert Lands(1, start, t - start, t); }
  }

  // ---- Building a manifest ----

  datatype Failure =
    | BadChannels | BothPolicies | BadIntegrity | NoPolicy
    | BadPointer | BadState | BadItems
    | OutOfWindow | NoKeyframe | MissingRecord | BadRecord | BrokenChain | HashMismatch
    | NoTicks | Gap | Invalid

  datatype Outcome<+T> = Done(value: T) | Raised(failure: Failure)

  // `_normalize_channels`.
  function NormalizeChannels(channels: seq<string>): seq<string> {
    StrLeIsTotalOrder();
    SortedSet((set c | c in channels && c in ALLOWED_CHANNELS), StrLe)
  }

  function IntText(t: int): string { if t < 0 then "-" + Digits(-t) else Digits(t) }

  function SnapshotPointer(t: int): Pointer {
    Pointer("snap:" + IntText(t), SnapshotPath(t), FullSnapshot, Some(t), None, None, None)
  }

  function DiffPointer(t: int): Pointer {
    Pointer("diff:" + IntText(t) + "->" + IntText(t + 1), DiffPath(t), FrameDiff, None, Some(t), Some(t + 1), None)
  }

  // `v.lower()`, on the characters a checksum may have.
  function LowerHex(c: char): char { if 'A' <= c <= 'F' then (c as int - 'A' as int + 'a' as int) as char else c }

  function Lower(v: string): string { seq(|v|, i requires 0 <= i < |v| => LowerHex(v[i])) }

  // Sixty-four hexadecimal digits of either case.
  predicate IsHexSha(v: string) {
    |v| == 64 && forall i | 0 <= i < |v| :: '0' <= LowerHex(v[i]) <= '9' || 'a' <= LowerHex(v[i]) <= 'f'
  }

  function LowerAll(integrity: map<string, string>): map<string, string> {
    map p | p in integrity :: Lower(integrity[p])
  }

  // `IntegritySpec.from_dict`.
  ghost predicate IntegrityOk(integrity: map<string, string>) {
    integrity != map[] && forall p :: p in integrity ==> p != "" && IsHexSha(integrity[p])
  }

  const HEX_DIGITS := "0123456789abcdefABCDEF"

  /** What a checksum may look like, and what lowering it keeps: sixteen digits of either case, only capitals changed. */
  lemma HexMeans(v: string)
    ensures IsHexSha(v) <==> |v| == 64 && forall i :: 0 <= i < |v| ==> v[i] in HEX_DIGITS
    ensures |Lower(v)| == |v| && forall i :: 0 <= i < |v| ==>
      Lower(v)[i] == match v[i] {
        case 'A' => 'a' case 'B' => 'b' case 'C' => 'c' case 'D' => 'd' case 'E' => 'e' case 'F' => 'f'
        case c => c
      }
  {
    forall c: char ensures c in HEX_DIGITS <==> '0' <= LowerHex(c) <= '9' || 'a' <= LowerHex(c) <= 'f' { HexDigitIs(c); }
  }

  lemma HexDigitIs(c: char)
    ensures c in HEX_DIGITS <==> '0' <= c <= '9' || 'a' <= c <= 'f' || 'A' <= c <= 'F'
    ensures c in HEX_DIGITS <==> '0' <= LowerHex(c) <= '9' || 'a' <= LowerHex(c) <= 'f'
  {
    var s := HEX_DIGITS;
    assert s[0] == '0' && s[1] == '1' && s[2] == '2' && s[3] == '3' && s[4] == '4' && s[5] == '5' && s[6] == '6' && s[7] == '7';
    assert s[8] == '8' && s[9] == '9' && s[10] == 'a' && s[11] == 'b' && s[12] == 'c' && s[13] == 'd' && s[14] == 'e' && s[15] == 'f';
    assert s[16] == 'A' && s[17] == 'B' && s[18] == 'C' && s[19] == 'D' && s[20] == 'E' && s[21] == 'F';
  }

  /** The number in a pointer's id, signed only where negative. */
  lemma IntTextReads(t: int)
    ensures var text := IntText(t); var digits := if t < 0 then text[1..] else text;
      && AllDigits(digits) && NumberOf(digits) == (if t < 0 then -t else t)
      && (t < 0 ==> text[0] == '-') && (t != 0 ==> digits[0] != '0')
  {
    var n := if t < 0 then -t else t;
    DigitsShape(n);
    DigitsRead(n);
    assert t < 0 ==> IntText(t)[1..] == Digits(n);
  }

  function DiffPointers(start: int, end: int): map<int, Pointer> {
    map t | start <= t < end :: t := DiffPointer(t)
  }

  function SnapshotPointers(ticks: seq<int>): map<int, Pointer> {
    map t | t in ticks :: t := SnapshotPointer(t)
  }

  /** `_build_manifest`; its interval loop only ends for intervals of at least one. */
  ghost function Build(channels: seq<string>, start: int, end: int, interval: Option<int>, ticks: Option<seq<int>>,
                       integrity: map<string, string>): Outcome<Manifest>
    requires interval.Some? ==> interval.value >= 1
  {
    var names := NormalizeChannels(channels);
    if names == [] then Raised(BadChannels)
    else if interval.Some? && ticks.Some? then Raised(BothPolicies)
    else if !IntegrityOk(integrity) then Raised(BadIntegrity)
    else
      var ks := Keyframes(interval, ticks, start, end);
      Done(Manifest(KVP_VERSION, SCHEMA_VERSION, start, end, names, interval,
                    if ticks.Some? then Some(ks) else None,
                    SnapshotPointers(ks), DiffPointers(start, end), LowerAll(integrity)))
  }

  method CheckIntegrity(integrity: map<string, string>) returns (ok: bool)
    ensures ok == IntegrityOk(integrity)
  {
    if integrity == map[] { return false; }
    var rest := integrity.Keys;
    while rest != {}
      invariant rest <= integrity.Keys
      invariant forall p :: p in integrity && p !in rest ==> p != "" && IsHexSha(integrity[p])
      decreases |rest|
    {
      var p :| p in rest;
      if p == "" || !IsHexSha(integrity[p]) { return false; }
      rest := rest - {p};
    }
    ok := true;
  }

  method KeyframeTicks(interval: Option<int>, ticks: Option<seq<int>>, start: int, end: int) returns (ks: seq<int>)
    requires interval.Some? ==> interval.value >= 1
    ensures ks == Keyframes(interval, ticks, start, end)
  {
    if ticks.Some? {
      ks := Normalized(ticks.value, start, end);
    } else {
      ks := IntervalTicks(if interval.Some? then interval.value else 1, start, end);
    }
  }

  lemma OneMoreSnapshot(ks: seq<int>, t: int)
    ensures SnapshotPointers(ks + [t]) == SnapshotPointers(ks)[t := SnapshotPointer(t)]
  {
  }

  method SnapshotsFor(ks: seq<int>) returns (snaps: map<int, Pointer>)
    ensures snaps == SnapshotPointers(ks)
  {
    snaps := map[];
    for i := 0 to |ks|
      invariant snaps == SnapshotPointers(ks[..i])
    {
      OneMoreSnapshot(ks[..i], ks[i]);
      assert ks[..i + 1] == ks[..i] + [ks[i]];
      snaps := snaps[ks[i] := SnapshotPointer(ks[i])];
    }
    assert ks[..|ks|] == ks;
  }

  lemma OneMoreDiff(start: int, t: int)
    requires start <= t
    ensures DiffPointers(start, t + 1) == DiffPointers(start, t)[t := DiffPointer(t)]
  {
  }

  method DiffsFor(start: int, end: int) returns (diffs: map<int, Pointer>)
    ensures diffs == DiffPointers(start, end)
  {
    diffs := map[];
    var ft := start;
    while ft < end
      invariant start <= ft && (ft <= end || ft == start)
      invariant diffs == DiffPointers(start, ft)
    {
      OneMoreDiff(start, ft);
      diffs := diffs[ft := DiffPointer(ft)];
      ft := ft + 1;
    }
  }

  method BuildManifest(channels: seq<string>, start: int, end: int, interval: Option<int>, ticks: Option<seq<int>>,
                       integrity: map<string, string>) returns (r: Outcome<Manifest>)
    requires interval.Some? ==> interval.value >= 1
    ensures r == Build(channels, start, end, interval, ticks, integrity)
  {
    var names := NormalizeChannels(channels);
    if names == [] { return Raised(BadChannels); }
    if interval.Some? && ticks.Some? { return Raised(BothPolicies); }
    var ks := KeyframeTicks(interval, ticks, start, end);
    var snaps := SnapshotsFor(ks);
    var diffs := DiffsFor(start, end);
    var ok := CheckIntegrity(integrity);
    if !ok { return Raised(BadIntegrity); }
    r := Done(Manifest(KVP_VERSION, SCHEMA_VERSION, start, end, names, interval,
                       if ticks.Some? then Some(ks) else None, snaps, diffs, LowerAll(integrity)));
  }

  // ---- Reading one back ----

  // An interval policy whose loop ends.
  predicate PolicyEnds(m: Manifest) { m.ticks.None? && m.interval.Some? ==> m.interval.value >= 1 }

  function DerivedKeyframes(m: Manifest): Outcome<seq<int>>
    requires PolicyEnds(m)
  {
    if m.ticks.Some? then Done(m.ticks.value)
    else if m.interval.None? then Raised(NoPolicy)
    else Done(Every(m.interval.value, m.start, m.end))
  }

  method DeriveKeyframeTicks(m: Manifest) returns (r: Outcome<seq<int>>)
    requires PolicyEnds(m)
    ensures r == DerivedKeyframes(m)
  {
    if m.ticks.Some? { return Done(m.ticks.value); }
    if m.interval.None? { return Raised(NoPolicy); }
    var ticks := IntervalTicks(m.interval.value, m.start, m.end);
    r := Done(ticks);
  }

  predicate Covered(p: Pointer, integrity: map<string, string>) {
    (p.sha.Some? && p.sha.value != "") || p.id in integrity || p.path in integrity
  }

  ghost predicate HeaderOk(m: Manifest) {
    && m.kvpVersion == KVP_VERSION && m.schemaVersion == SCHEMA_VERSION
    && 0 <= m.start <= m.end
    && m.channels != [] && NoDuplicates(m.channels) && (forall c :: c in m.channels ==> c in ALLOWED_CHANNELS)
  }

  ghost predicate PolicyOk(m: Manifest) {
    && m.interval.None? != m.ticks.None?
    && (m.interval.Some? ==> m.interval.value >= 1)
    && (m.ticks.Some? ==> m.ticks.value != [] && Ascends(m.ticks.value) && Within(m.ticks.value, m.start, m.end))
  }

  ghost predicate RecordsOk(m: Manifest)
    requires PolicyOk(m)
  {
    && (forall t :: t in DerivedKeyframes(m).value ==> t in m.snapshots && m.snapshots[t].msgType == FullSnapshot)
    && (forall t :: m.start <= t < m.end ==> t in m.diffs)
  }

  ghost predicate ChecksumsOk(m: Manifest) {
    && (forall t :: t in m.snapshots ==> Covered(m.snapshots[t], m.integrity))
    && (forall t :: t in m.diffs ==> Covered(m.diffs[t], m.integrity))
  }

  /** Everything `ManifestV0_1.validate` requires. */
  ghost predicate Validates(m: Manifest) {
    HeaderOk(m) && PolicyOk(m) && RecordsOk(m) && ChecksumsOk(m)
  }

  lemma ChannelsOk(channels: seq<string>)
    ensures var names := NormalizeChannels(channels);
      NoDuplicates(names) && forall c :: c in names <==> c in channels && c in ALLOWED_CHANNELS
  {
    StrLeIsTotalOrder();
    SortedSetAscends((set c | c in channels && c in ALLOWED_CHANNELS), StrLe);
  }

  // Every record the manifest points to has its checksum in the map.
  ghost predicate CoversAll(integrity: map<string, string>, ks: seq<int>, start: int, end: int) {
    && (forall t :: t in ks ==> Covered(SnapshotPointer(t), integrity))
    && (forall t :: start <= t < end ==> Covered(DiffPointer(t), integrity))
  }

  lemma CoversAllRecords(m: Manifest, ks: seq<int>)
    requires m.snapshots == SnapshotPointers(ks) && m.diffs == DiffPointers(m.start, m.end)
    ensures ChecksumsOk(m) <==> CoversAll(m.integrity, ks, m.start, m.end)
  {
    if ChecksumsOk(m) {
      forall t | t in ks ensures Covered(SnapshotPointer(t), m.integrity) { assert t in m.snapshots; }
      forall t | m.start <= t < m.end ensures Covered(DiffPointer(t), m.integrity) { assert t in m.diffs; }
    }
    if CoversAll(m.integrity, ks, m.start, m.end) {
      forall t | t in m.diffs ensures Covered(m.diffs[t], m.integrity) { assert m.diffs[t] == DiffPointer(t); }
    }
  }

  lemma CoverageKeepsCase(integrity: map<string, string>, ks: seq<int>, start: int, end: int)
    ensures CoversAll(LowerAll(integrity), ks, start, end) <==> CoversAll(integrity, ks, start, end)
  {
    assert forall p :: Covered(p, LowerAll(integrity)) == Covered(p, integrity);
  }

  lemma LowerIsLower(v: string)
    ensures IsHexSha(v) <==> IsHexSha(Lower(v))
    ensures Lower(Lower(v)) == Lower(v)
  {
    forall i | 0 <= i < |v| ensures LowerHex(v[i]) == LowerHex(Lower(v)[i]) {}
  }

  lemma BuiltFields(channels: seq<string>, start: int, end: int, interval: Option<int>, ticks: Option<seq<int>>,
                    integrity: map<string, string>) returns (m: Manifest, ks: seq<int>)
    requires interval.Some? ==> interval.value >= 1
    requires Build(channels, start, end, interval, ticks, integrity).Done?
    ensures Build(channels, start, end, interval, ticks, integrity) == Done(m)
    ensures ks == Keyframes(interval, ticks, start, end) && m.start == start && m.end == end
    ensures m.snapshots == SnapshotPointers(ks) && m.diffs == DiffPointers(start, end)
    ensures m.interval == interval && m.ticks == (if ticks.Some? then Some(ks) else None)
    ensures interval.None? || ticks.None?
    ensures m.integrity == LowerAll(integrity) && IntegrityOk(m.integrity) && LowerAll(m.integrity) == m.integrity
    ensures HeaderOk(m) <==> 0 <= start <= end
    ensures interval.Some? || ticks.Some? ==> PolicyEnds(m) && DerivedKeyframes(m) == Done(ks)
  {
    ChannelsOk(channels);
    m, ks := Build(channels, start, end, interval, ticks, integrity).value, Keyframes(interval, ticks, start, end);
    LoweredOk(integrity);
  }

  /** What the pointers of a built manifest say of their records. */
  lemma PointersTell(channels: seq<string>, start: int, end: int, interval: Option<int>, ticks: Option<seq<int>>,
                     integrity: map<string, string>, t: int)
    requires interval.Some? ==> interval.value >= 1
    requires Build(channels, start, end, interval, ticks, integrity).Done?
    ensures var m := Build(channels, start, end, interval, ticks, integrity).value;
      && (t in m.snapshots <==> t in Keyframes(interval, ticks, start, end))
      && (t in m.snapshots ==> var p := m.snapshots[t];
            && p.id == "snap:" + IntText(t) && p.path == SnapshotPath(t) && p.msgType == FullSnapshot
            && p.tick == Some(t) && p.from == None && p.to == None && p.sha == None)
      && (t in m.diffs <==> start <= t < end)
      && (t in m.diffs ==> var p := m.diffs[t];
            && p.id == "diff:" + IntText(t) + "->" + IntText(t + 1) && p.path == DiffPath(t) && p.msgType == FrameDiff
            && p.tick == None && p.from == Some(t) && p.to == Some(t + 1) && p.sha == None)
  {
    var m, ks := BuiltFields(channels, start, end, interval, ticks, integrity);
    hide Build, Keyframes, SnapshotPath, DiffPath, IntText;
  }

  lemma LoweredOk(integrity: map<string, string>)
    requires IntegrityOk(integrity)
    ensures IntegrityOk(LowerAll(integrity)) && LowerAll(LowerAll(integrity)) == LowerAll(integrity)
  {
    forall p | p in integrity ensures IsHexSha(Lower(integrity[p])) && Lower(Lower(integrity[p])) == Lower(integrity[p]) {
      LowerIsLower(integrity[p]);
    }
    var p :| p in integrity;
    assert p in LowerAll(integrity);
  }

  /**
   A built manifest validates exactly when the window is one, a policy was given, and
   the checksums cover the records; with no policy its snapshots are there, yet no
   reader can derive them.
   */
  lemma BuiltValidates(channels: seq<string>, start: int, end: int, interval: Option<int>, ticks: Option<seq<int>>,
                       integrity: map<string, string>)
    requires interval.Some? ==> interval.value >= 1
    requires Build(channels, start, end, interval, ticks, integrity).Done?
    ensures Validates(Build(channels, start, end, interval, ticks, integrity).value) <==>
      && 0 <= start <= end && (interval.Some? || ticks.Some?)
      && CoversAll(integrity, Keyframes(interval, ticks, start, end), start, end)
  {
    hide Build, Keyframes, CoversAll, LowerAll;
    var m, ks := BuiltFields(channels, start, end, interval, ticks, integrity);
    CoversAllRecords(m, ks);
    CoverageKeepsCase(integrity, ks, start, end);
    if 0 <= start <= end && (interval.Some? || ticks.Some?) {
      KeyframesAscend(interval, ticks, start, end);
      assert PolicyOk(m) && RecordsOk(m);
    }
  }

  // ---- The draft ----

  // `"0" * 64`.
  const NO_SHA: string := Zeros(64)

  // The records a draft is given placeholders for; listed keyframes are not yet confined to the window.
  ghost function DraftPaths(interval: Option<int>, ticks: Option<seq<int>>, start: int, end: int): set<string>
    requires interval.Some? ==> interval.value >= 1
  {
    var ks := if ticks.Some? then ticks.value else Every(if interval.Some? then interval.value else 1, start, end);
    (set t | t in ks :: SnapshotPath(t)) + (set t | start <= t < end :: DiffPath(t))
  }

  /** `_placeholder_integrity_map`. */
  ghost function Placeholders(interval: Option<int>, ticks: Option<seq<int>>, start: int, end: int): map<string, string>
    requires interval.Some? ==> interval.value >= 1
  {
    var paths := DraftPaths(interval, ticks, start, end);
    if paths == {} then map["placeholder" := NO_SHA] else map p | p in paths :: NO_SHA
  }

  lemma NoShaIsHex()
    ensures IsHexSha(NO_SHA)
  {
    assert LowerHex('0') == '0';
  }

  lemma DraftPathsNamed(interval: Option<int>, ticks: Option<seq<int>>, start: int, end: int, p: string)
    requires (interval.Some? ==> interval.value >= 1) && p in DraftPaths(interval, ticks, start, end)
    ensures p != ""
  {
  }

  lemma PlaceholdersOk(interval: Option<int>, ticks: Option<seq<int>>, start: int, end: int)
    requires interval.Some? ==> interval.value >= 1
    ensures IntegrityOk(Placeholders(interval, ticks, start, end))
  {
    hide DraftPaths;
    var paths, all := DraftPaths(interval, ticks, start, end), Placeholders(interval, ticks, start, end);
    NoShaIsHex();
    forall p | p in all ensures p != "" && IsHexSha(all[p]) {
      if p in paths { DraftPathsNamed(interval, ticks, start, end, p); }
    }
    if paths != {} {
      var p :| p in paths;
      assert p in all;
    } else {
      assert "placeholder" in all;
    }
  }

  lemma NormalizedTwice(channels: seq<string>)
    ensures NormalizeChannels(NormalizeChannels(channels)) == NormalizeChannels(channels)
    ensures NormalizeChannels(channels) != [] <==> exists c :: c in channels && c in ALLOWED_CHANNELS
  {
    ChannelsOk(channels);
    var names := NormalizeChannels(channels);
    assert (set c | c in names && c in ALLOWED_CHANNELS) == (set c | c in channels && c in ALLOWED_CHANNELS);
    if names != [] { assert names[0] in names; }
  }

  /** The draft is built, whatever the window, exactly when a channel is known and not both policies are given. */
  lemma DraftIsBuilt(channels: seq<string>, start: int, end: int, interval: Option<int>, ticks: Option<seq<int>>)
    requires interval.Some? ==> interval.value >= 1
    ensures Build(NormalizeChannels(channels), start, end, interval, ticks, Placeholders(interval, ticks, start, end)).Done?
      <==> (exists c :: c in channels && c in ALLOWED_CHANNELS) && !(interval.Some? && ticks.Some?)
  {
    NormalizedTwice(channels);
    PlaceholdersOk(interval, ticks, start, end);
  }

  // The keys of the placeholder map start like paths, the ids of records do not.
  lemma IdIsNoPlaceholder(interval: Option<int>, ticks: Option<seq<int>>, start: int, end: int, t: int)
    requires interval.Some? ==> interval.value >= 1
    ensures SnapshotPointer(t).id !in Placeholders(interval, ticks, start, end)
    ensures DiffPointer(t).id !in Placeholders(interval, ticks, start, end)
  {
    var all := Placeholders(interval, ticks, start, end);
    forall p | p in all ensures p[1] in {'t', 'l'} {
      if p in DraftPaths(interval, ticks, start, end) { PathStarts(interval, ticks, start, end, p); }
    }
    assert SnapshotPointer(t).id[1] == 'n' && DiffPointer(t).id[1] == 'i';
  }

  lemma PathHeads(t: int)
    ensures |SnapshotPath(t)| > 1 && SnapshotPath(t)[0] == 's' && SnapshotPath(t)[1] == 't'
    ensures |DiffPath(t)| > 1 && DiffPath(t)[0] == 's' && DiffPath(t)[1] == 't'
  {
    hide TickText;
    var tail := "_to_" + TickText(t + 1) + ".kvp.json";
    assert DiffPath(t) == "state/diffs/from_" + (TickText(t) + tail);
  }

  lemma PathStarts(interval: Option<int>, ticks: Option<seq<int>>, start: int, end: int, p: string)
    requires (interval.Some? ==> interval.value >= 1) && p in DraftPaths(interval, ticks, start, end)
    ensures |p| > 1 && p[1] == 't'
  {
    hide SnapshotPath, DiffPath, Every;
    forall t { PathHeads(t); }
  }

  lemma DraftPathIs(interval: Option<int>, ticks: Option<seq<int>>, start: int, end: int, t: int)
    requires interval.Some? ==> interval.value >= 1
    ensures var ks := if ticks.Some? then ticks.value else Every(if interval.Some? then interval.value else 1, start, end);
      && (SnapshotPath(t) in DraftPaths(interval, ticks, start, end) <==> t in ks)
      && (DiffPath(t) in DraftPaths(interval, ticks, start, end) <==> start <= t < end)
  {
    hide SnapshotPath, DiffPath, Every;
    forall u ensures SnapshotPath(t) != DiffPath(u) && (SnapshotPath(t) == SnapshotPath(u) <==> t == u)
                     && (DiffPath(t) == DiffPath(u) <==> t == u) && SnapshotPath(u) != DiffPath(t) {
      PathsDistinct(t, u);
      PathsDistinct(u, t);
    }
  }

  lemma PlaceholderIs(interval: Option<int>, ticks: Option<seq<int>>, start: int, end: int, t: int)
    requires interval.Some? ==> interval.value >= 1
    ensures SnapshotPath(t) in Placeholders(interval, ticks, start, end) <==>
      if ticks.Some? then t in ticks.value else t in Keyframes(interval, ticks, start, end)
    ensures DiffPath(t) in Placeholders(interval, ticks, start, end) <==> start <= t < end
  {
    hide SnapshotPath, DiffPath, DraftPaths, Every;
    DraftPathIs(interval, ticks, start, end, t);
    PathHeads(t);
    assert "placeholder"[0] == 'p';
  }

  /**
   The placeholders of a draft cover its records unless keyframes are listed without the
   start, which the builder adds and the placeholders forget.
   */
  lemma DraftCovers(interval: Option<int>, ticks: Option<seq<int>>, start: int, end: int)
    requires interval.Some? ==> interval.value >= 1
    ensures CoversAll(Placeholders(interval, ticks, start, end), Keyframes(interval, ticks, start, end), start, end)
      <==> (ticks.Some? ==> start in ticks.value)
  {
    var all, ks := Placeholders(interval, ticks, start, end), Keyframes(interval, ticks, start, end);
    forall t ensures (Covered(SnapshotPointer(t), all) <==> if ticks.Some? then t in ticks.value else t in ks)
                     && (Covered(DiffPointer(t), all) <==> start <= t < end) {
      IdIsNoPlaceholder(interval, ticks, start, end, t);
      PlaceholderIs(interval, ticks, start, end, t);
    }
    if ticks.Some? {
      NormalizedExactly(ticks.value, start, end, start);
      forall t | t in ks ensures t == start || t in ticks.value { NormalizedExactly(ticks.value, start, end, t); }
    }
  }
}
