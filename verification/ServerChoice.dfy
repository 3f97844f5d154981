/**
 * The choice of a server for an operation: one pass over the servers with a running
 * best. What the read preference modes promise about it is proved for every list.
 */
module ServerChoice {
  import Session

  /** A server as the choice sees it; `busy` is the number of its sockets in use, `ping` in milliseconds. */
  datatype Candidate = Candidate(master: bool, mongos: bool, hasTags: bool, ping: int, busy: int)

  datatype Option<T> = None | Some(value: T)

  /** With tags requested a server must have them; a mongos passes always. */
  predicate Passes(tagged: bool, c: Candidate) { tagged ==> c.mongos || c.hasTags }

  /** The kind of server the mode prefers. */
  predicate Preferred(mode: Session.Mode, c: Candidate) { c.master == (mode == Session.PrimaryPreferred) }

  predicate Far(a: int, b: int) { a - b > 15 || b - a > 15 }

  /** Whether the next server takes the place of the best so far. */
  predicate Swaps(mode: Session.Mode, tagged: bool, best: Candidate, next: Candidate) {
    if !Passes(tagged, next) then false
    else if mode == Session.Secondary && next.master && !next.mongos then false
    else if next.master != best.master && mode != Session.Nearest then (mode == Session.PrimaryPreferred) != best.master
    else if Far(next.ping, best.ping) then next.ping < best.ping
    else next.busy < best.busy
  }

  predicate PlainMaster(c: Candidate) { c.master && !c.mongos }

  /** In Secondary mode this server leaves a plain master in place: a master itself, and if a mongos then no better. */
  predicate Leaves(tagged: bool, best: Candidate, next: Candidate) {
    Passes(tagged, next) ==>
      next.master && (next.mongos ==> if Far(next.ping, best.ping) then next.ping > best.ping else next.busy >= best.busy)
  }

  /** The first server that passes. */
  predicate FirstPassing(tagged: bool, slice: seq<Candidate>, f: nat) {
    f < |slice| && Passes(tagged, slice[f]) && forall k :: 0 <= k < f ==> !Passes(tagged, slice[k])
  }

  /**
   * BestFit: nothing exactly if no server passes; otherwise one that passes, and of the
   * preferred kind if any server that passes is, unless the mode is Nearest. No server
   * after the chosen one would take its place. Secondary mode ends at a plain master exactly
   * if that is the first server that passes and every later one leaves it in place.
   */
  method BestFit(mode: Session.Mode, tagged: bool, slice: seq<Candidate>) returns (best: Option<nat>)
    ensures best.None? <==> forall i :: 0 <= i < |slice| ==> !Passes(tagged, slice[i])
    ensures best.Some? ==> best.value < |slice| && Passes(tagged, slice[best.value])
    ensures best.Some? && mode != Session.Nearest && (exists i :: 0 <= i < |slice| && Passes(tagged, slice[i]) && Preferred(mode, slice[i])) ==>
      Preferred(mode, slice[best.value])
    ensures best.Some? ==> forall i :: best.value < i < |slice| ==> !Swaps(mode, tagged, slice[best.value], slice[i])
    ensures mode == Session.Secondary ==> (best.Some? && PlainMaster(slice[best.value]) <==>
      exists f: nat :: FirstPassing(tagged, slice, f) && PlainMaster(slice[f]) && forall k :: f < k < |slice| ==> Leaves(tagged, slice[f], slice[k]))
  {
    best := None;
    ghost var first := 0;
    var i := 0;
    while i < |slice|
      invariant 0 <= i <= |slice|
      invariant best.None? <==> forall k :: 0 <= k < i ==> !Passes(tagged, slice[k])
      invariant best.Some? ==> best.value < i && Passes(tagged, slice[best.value])
      invariant best.Some? && mode != Session.Nearest && !Preferred(mode, slice[best.value]) ==>
        forall k :: 0 <= k < i && Passes(tagged, slice[k]) ==> !Preferred(mode, slice[k])
      invariant best.Some? ==> forall k :: best.value < k < i ==> !Swaps(mode, tagged, slice[best.value], slice[k])
      invariant best.Some? ==> first < i && FirstPassing(tagged, slice, first)
      invariant best.Some? && mode == Session.Secondary ==> if PlainMaster(slice[best.value])
        then best.value == first && forall k :: first < k < i ==> Leaves(tagged, slice[first], slice[k])
        else PlainMaster(slice[first]) ==> exists k :: first < k < i && !Leaves(tagged, slice[first], slice[k])
    {
      var next := slice[i];
      if best.None? {
        first := i;
        best := if tagged && !next.mongos && !next.hasTags then None else Some(i);
      } else {
        var b := slice[best.value];
        var swap := false;
        if tagged && !next.mongos && !next.hasTags {
        } else if mode == Session.Secondary && next.master && !next.mongos {
        } else if next.master != b.master && mode != Session.Nearest {
          swap := (mode == Session.PrimaryPreferred) != b.master;
        } else if Far(next.ping, b.ping) {
          swap := next.ping < b.ping;
        } else if next.busy < b.busy {
          swap := true;
        }
        if swap { best := Some(i); }
      }
      i := i + 1;
    }
    assert best.Some? ==> forall f: nat :: FirstPassing(tagged, slice, f) ==> f == first;
  }
}
