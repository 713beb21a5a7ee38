/** The router's cached snapshot of one daemon, patched by numbered events
    with gap detection. */
module EventView {

  import opened Basics

  /** A JSON value. Only whole numbers matter here. */
  datatype Value =
    | Null
    | Bool(b: bool)
    | Num(n: int)
    | Str(s: string)
    | Arr(items: seq<Value>)
    | Obj(fields: map<string, Value>)

  /** `v["k"]`: null when the value is not an object or lacks the key. */
  function At(v: Value, k: string): Value {
    if v.Obj? && k in v.fields then v.fields[k] else Null
  }

  function AsNat(v: Value): Option<nat> {
    if v.Num? && v.n >= 0 then Some(v.n) else None
  }

  function AsStr(v: Value): Option<string> {
    if v.Str? then Some(v.s) else None
  }

  // ---------------------------------------------------------------- patches

  /** Store a value at a path of keys, or remove the path. Missing parents are
      created. None when the path does not lead through objects. */
  function PatchAt(root: Value, at: seq<string>, value: Option<Value>): (r: Option<Value>)
    ensures r.Some? ==> at != [] && root.Obj? && r.value.Obj?
    decreases |at|
  {
    if at == [] || !root.Obj? then None
    else if |at| == 1 then
      Some(Obj(if value.Some? then root.fields[at[0] := value.value]
               else root.fields - {at[0]}))
    else
      var child := if at[0] in root.fields then root.fields[at[0]] else Obj(map[]);
      var c := PatchAt(child, at[1..], value);
      if c.None? then None else Some(Obj(root.fields[at[0] := c.value]))
  }

  /** The value a path leads to. */
  function Lookup(v: Value, path: seq<string>): Option<Value>
    decreases |path|
  {
    if path == [] then Some(v)
    else if v.Obj? && path[0] in v.fields then Lookup(v.fields[path[0]], path[1..])
    else None
  }

  /** The parent `i` steps down a path is an object or is still to be made. */
  ghost predicate Passable(root: Value, at: seq<string>, i: nat)
    requires i <= |at|
  {
    Lookup(root, at[..i]).Some? ==> Lookup(root, at[..i]).value.Obj?
  }

  /** A patch applies exactly when no parent on its path holds something other
      than an object. */
  lemma {:induction false} PatchAppliesExactly(root: Value, at: seq<string>, value: Option<Value>)
    ensures PatchAt(root, at, value).Some? <==>
            at != [] && forall i :: 0 <= i < |at| ==> Passable(root, at, i)
    decreases |at|
  {
    if at != [] {
      assert at[..0] == [] && Passable(root, at, 0) == root.Obj?;
    }
    if |at| > 1 && root.Obj? {
      var child := if at[0] in root.fields then root.fields[at[0]] else Obj(map[]);
      PatchAppliesExactly(child, at[1..], value);
      forall i | 0 <= i < |at| - 1
        ensures Passable(root, at, i + 1) == Passable(child, at[1..], i)
      {
        assert at[..i + 1][1..] == at[1..][..i] && at[..i + 1][0] == at[0];
      }
      if forall i :: 0 <= i < |at[1..]| ==> Passable(child, at[1..], i) {
        forall i | 0 <= i < |at| ensures Passable(root, at, i) {
          if i > 0 { assert Passable(child, at[1..], i - 1); }
        }
      }
    }
  }

  /** A stored value is read back, a removed path is gone, and every path that
      neither extends nor leads to the patched one reads as before. */
  lemma {:induction false} PatchStores(root: Value, at: seq<string>, value: Option<Value>, q: seq<string>)
    requires PatchAt(root, at, value).Some?
    ensures Lookup(PatchAt(root, at, value).value, at) == value
    ensures !(at <= q) && !(q <= at) ==>
              Lookup(PatchAt(root, at, value).value, q) == Lookup(root, q)
    decreases |at|
  {
    var r := PatchAt(root, at, value).value;
    if |at| == 1 {
      if value.Some? { assert Lookup(r, at) == Lookup(r.fields[at[0]], at[1..]); }
      if q != [] && q[0] == at[0] {
        assert at <= q;
      }
    } else {
      var child := if at[0] in root.fields then root.fields[at[0]] else Obj(map[]);
      var q' := if q == [] then [] else q[1..];
      PatchStores(child, at[1..], value, q');
      if q != [] && q[0] == at[0] && !(at <= q) && !(q <= at) {
        assert q == [at[0]] + q' && at == [at[0]] + at[1..];
        assert !(at[1..] <= q') && !(q' <= at[1..]);
        if at[0] !in root.fields {
          assert q' != [];
        }
      }
    }
  }

  /** The keys of a path given as JSON, or None when one is not a string. */
  function Keys(at: seq<Value>): Option<seq<string>> {
    if at == [] then Some([])
    else
      var rest := Keys(at[1..]);
      if at[0].Str? && rest.Some? then Some([at[0].s] + rest.value) else None
  }

  function PatchEntry(v: Value, entry: Value): Option<Value> {
    var at := At(entry, "at");
    if !at.Arr? then None
    else
      var keys := Keys(at.items);
      if keys.None? then None
      else
        PatchAt(v, keys.value,
                if entry.Obj? && "value" in entry.fields then Some(entry.fields["value"]) else None)
  }

  function PatchEntries(v: Value, entries: seq<Value>): Option<Value>
    decreases |entries|
  {
    if entries == [] then Some(v)
    else
      var r := PatchEntry(v, entries[0]);
      if r.None? then None else PatchEntries(r.value, entries[1..])
  }

  /** The snapshot after one event's `patch`: every entry lands, or None. */
  function Patched(v: Value, event: Value): Option<Value> {
    if At(event, "patch").Arr? then PatchEntries(v, At(event, "patch").items) else None
  }

  // ------------------------------------------------------------ one frame

  /** `Moved`: the view moved. `Skip`: nothing to do. `Resync`: the view cannot
      be trusted and the snapshot has to be read again. */
  datatype Applied = Moved | Skip | Resync

  /** The stored snapshot, and the number of the last event it reflects. */
  datatype View = View(status: Option<Value>, lastSeq: Option<nat>)

  function FoldFrame(view: View, node: Option<string>, ev: Value): (View, Applied) {
    if AsStr(At(ev, "type")) == Some("snapshot") then
      (View(Some(At(ev, "data")), AsNat(At(ev, "seq"))), Moved)
    else if AsStr(At(ev, "node")) != node then (view, Skip)
    else
      var seqNo := AsNat(At(ev, "seq"));
      if seqNo.None? || view.lastSeq.None? then (view, Resync)
      else if seqNo.value <= view.lastSeq.value then (view, Skip)
      else if seqNo.value > view.lastSeq.value + 1 || view.status.None? then (view, Resync)
      else
        var v := Patched(view.status.value, ev);
        if v.None? then (view, Resync) else (View(v, seqNo), Moved)
  }

  /** The stored view of one watched daemon. */
  class DaemonView {
    var status: Option<Value>
    var lastSeq: Option<nat>

    constructor ()
      ensures status == None && lastSeq == None
    {
      status, lastSeq := None, None;
    }

    /** Apply one event's patch to the stored snapshot. A copy is staged and
        swapped in at the end, so a patch that fails half way changes nothing. */
    method ApplyPatch(event: Value) returns (ok: bool)
      requires status.Some?
      modifies this`status
      ensures ok == Patched(old(status).value, event).Some?
      ensures status == if ok then Patched(old(status).value, event) else old(status)
    {
      var patch := At(event, "patch");
      if !patch.Arr? { return false; }
      var staged := status.value;
      var i := 0;
      while i < |patch.items|
        invariant 0 <= i <= |patch.items| && status == old(status)
        invariant PatchEntries(staged, patch.items[i..]) == PatchEntries(status.value, patch.items)
      {
        var entry := patch.items[i];
        assert patch.items[i..][0] == entry && patch.items[i..][1..] == patch.items[i + 1..];
        var r := PatchEntry(staged, entry);
        if r.None? { return false; }
        staged := r.value;
        i := i + 1;
      }
      assert patch.items[i..] == [];
      status := Some(staged);
      return true;
    }

    /** Fold one frame into the stored snapshot. */
    method ApplyFrame(node: Option<string>, ev: Value) returns (r: Applied)
      modifies this
      ensures (View(status, lastSeq), r) == FoldFrame(old(View(status, lastSeq)), node, ev)
      ensures r != Moved ==> status == old(status) && lastSeq == old(lastSeq)
    {
      if AsStr(At(ev, "type")) == Some("snapshot") {
        status := Some(At(ev, "data"));
        lastSeq := AsNat(At(ev, "seq"));
        return Moved;
      }
      if AsStr(At(ev, "node")) != node { return Skip; }
      var seqNo := AsNat(At(ev, "seq"));
      if seqNo.None? { return Resync; }
      match lastSeq
      case None =>
        return Resync;
      case Some(prev) =>
        if seqNo.value == prev + 1 {
        } else if seqNo.value <= prev {
          return Skip;
        } else {
          return Resync;
        }
      if status.None? { return Resync; }
      var ok := ApplyPatch(ev);
      if !ok { return Resync; }
      lastSeq := seqNo;
      return Moved;
    }

    /** A successful read of `/status`, which anchors the stream at the number
        the snapshot states. */
    method Reread(snap: Value)
      modifies this
      ensures status == Some(snap) && lastSeq == AsNat(At(snap, "seq"))
    {
      status := Some(snap);
      lastSeq := AsNat(At(status.value, "seq"));
    }
  }

  // ------------------------------------------------------------ whole runs

  /** What reaches the router: a stream frame, a snapshot read over HTTP, or
      the loss of the stream, which forgets the position. */
  datatype Input = Frame(ev: Value) | Read(snap: Value) | Lost

  function StepView(view: View, node: string, i: Input): View {
    match i
    case Frame(ev) => FoldFrame(view, Some(node), ev).0
    case Read(snap) => View(Some(snap), AsNat(At(snap, "seq")))
    case Lost => view.(lastSeq := None)
  }

  function RunView(view: View, node: string, ins: seq<Input>): View {
    if ins == [] then view
    else StepView(RunView(view, node, ins[..|ins| - 1]), node, ins[|ins| - 1])
  }

  /** One daemon process numbers its own events 1, 2, ... and never reuses a
      number, so a frame of its own that holds a number is that event. Frames of
      other nodes, snapshots and malformed frames are unrestricted. */
  ghost predicate OfProcess(h: seq<Value>, node: string, i: Input) {
    i.Frame? && AsStr(At(i.ev, "type")) != Some("snapshot") && AsStr(At(i.ev, "node")) == Some(node) ==>
      var k := AsNat(At(i.ev, "seq"));
      k.Some? ==> 1 <= k.value <= |h| && i.ev == h[k.value - 1]
  }

  /** The last snapshot, the number it states, and the last event applied since. */
  datatype Anchor = Anchor(snap: Value, from: nat, upto: nat)

  /** Events `from + 1` to `upto` applied to a snapshot, once each, in order. */
  function Replay(h: seq<Value>, snap: Value, from: nat, upto: nat): Option<Value>
    decreases upto
  {
    if upto <= from then Some(snap)
    else if upto > |h| then None
    else
      var before := Replay(h, snap, from, upto - 1);
      if before.None? then None else Patched(before.value, h[upto - 1])
  }

  function IsSnapshot(i: Input): Option<Value> {
    if i.Read? then Some(i.snap)
    else if i.Frame? && AsStr(At(i.ev, "type")) == Some("snapshot") then Some(At(i.ev, "data"))
    else None
  }

  function SeqOf(i: Input): Option<nat> {
    if i.Read? then AsNat(At(i.snap, "seq"))
    else if i.Frame? then AsNat(At(i.ev, "seq"))
    else None
  }

  /** The last snapshot among the inputs, with its number. */
  function LastSnapshot(ins: seq<Input>): Option<(Value, Option<nat>)> {
    if ins == [] then None
    else
      var i := ins[|ins| - 1];
      if IsSnapshot(i).Some? then Some((IsSnapshot(i).value, SeqOf(i)))
      else LastSnapshot(ins[..|ins| - 1])
  }

  /** The stored view is the last snapshot with exactly the events numbered
      after it, up to `upto`, applied once each in order. */
  ghost predicate IsFold(h: seq<Value>, ins: seq<Input>, view: View, upto: nat) {
    match LastSnapshot(ins)
    case None => view == View(None, None)
    case Some((snap, k)) =>
      var from := if k.Some? then k.value else 0;
      from <= upto && (k.None? ==> upto == from && view.lastSeq.None?) &&
      view.status.Some? && view.status == Replay(h, snap, from, upto) &&
      (view.lastSeq.Some? ==> view.lastSeq == Some(upto))
  }

  lemma FoldStep(h: seq<Value>, node: string, ins: seq<Input>, view: View, upto: nat, i: Input)
      returns (upto': nat)
    requires IsFold(h, ins, view, upto) && OfProcess(h, node, i)
    ensures IsFold(h, ins + [i], StepView(view, node, i), upto')
  {
    assert (ins + [i])[..|ins|] == ins;
    upto' := upto;
    if IsSnapshot(i).Some? {
      upto' := if SeqOf(i).Some? then SeqOf(i).value else 0;
    } else if i.Frame? && FoldFrame(view, Some(node), i.ev).1 == Moved {
      upto' := upto + 1;
    }
  }

  /** For every mix of stale, repeated, missing, malformed and foreign frames
      and snapshot reads from one process, the view is that fold. */
  lemma {:induction false} ViewIsFold(h: seq<Value>, node: string, ins: seq<Input>) returns (upto: nat)
    requires forall k :: 0 <= k < |ins| ==> OfProcess(h, node, ins[k])
    ensures IsFold(h, ins, RunView(View(None, None), node, ins), upto)
  {
    if ins == [] {
      upto := 0;
    } else {
      var n := |ins| - 1;
      var before := ViewIsFold(h, node, ins[..n]);
      assert ins == ins[..n] + [ins[n]];
      upto := FoldStep(h, node, ins[..n], RunView(View(None, None), node, ins[..n]), before, ins[n]);
    }
  }
}
