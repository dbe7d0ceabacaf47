/** SG Ready control through a boost relay and an optional dim relay (charger/sgready-relay.go). */
module SgReadyRelay {
  import opened Wrappers

  const DIM := 1
  const NORMAL := 2
  const BOOST := 3

  datatype Relays = Relays(boost: bool, dim: bool)

  /** A relay call that fails may or may not have switched the relay. */
  datatype Reply = Done | Failed(switched: bool)

  /** The relay states after each call that was made, and whether the mode change failed. */
  datatype Change = Change(visited: seq<Relays>, err: bool)

  function SwitchBoost(r: Relays, on: bool, reply: Reply): Relays {
    if reply.Done? || reply.switched then r.(boost := on) else r
  }

  function SwitchDim(r: Relays, on: bool, reply: Reply): Relays {
    if reply.Done? || reply.switched then r.(dim := on) else r
  }

  /** Switches dim off, if there is one, and only then boost. */
  function DimOffThenBoost(hasDim: bool, r: Relays, boost: bool, dimReply: Reply, boostReply: Reply): Change {
    if !hasDim then Change([SwitchBoost(r, boost, boostReply)], !boostReply.Done?)
    else
      var r1 := SwitchDim(r, false, dimReply);
      if !dimReply.Done? then Change([r1], true)
      else Change([r1, SwitchBoost(r1, boost, boostReply)], !boostReply.Done?)
  }

  function SetMode(hasDim: bool, r: Relays, mode: int, dimReply: Reply, boostReply: Reply): Change {
    if mode == DIM then
      if !hasDim then Change([], true)
      else
        var r1 := SwitchBoost(r, false, boostReply);
        if !boostReply.Done? then Change([r1], true)
        else Change([r1, SwitchDim(r1, true, dimReply)], !dimReply.Done?)
    else if mode == NORMAL then DimOffThenBoost(hasDim, r, false, dimReply, boostReply)
    else if mode == BOOST then DimOffThenBoost(hasDim, r, true, dimReply, boostReply)
    else Change([], true)
  }

  function Last(r: Relays, visited: seq<Relays>): Relays {
    if visited == [] then r else visited[|visited| - 1]
  }

  function GetMode(hasDim: bool, r: Relays): int {
    if hasDim && r.dim then DIM else if r.boost then BOOST else NORMAL
  }

  predicate Interlocked(r: Relays) { !(r.boost && r.dim) }

  /** One mode change keeps the interlock at every intermediate point, whatever fails. */
  lemma ChangeKeepsInterlock(hasDim: bool, r: Relays, mode: int, dimReply: Reply, boostReply: Reply)
    requires Interlocked(r)
    requires !hasDim ==> !r.dim
    ensures var c := SetMode(hasDim, r, mode, dimReply, boostReply);
            && (forall x :: x in c.visited ==> Interlocked(x) && (!hasDim ==> !x.dim))
            && Interlocked(Last(r, c.visited))
  {
  }

  /** A mode change succeeds exactly when the mode exists and every call made is answered; then the mode
      is read back and both relays are never on, even if they were before. */
  lemma SetThenGet(hasDim: bool, r: Relays, mode: int, dimReply: Reply, boostReply: Reply)
    requires !hasDim ==> !r.dim
    ensures var c := SetMode(hasDim, r, mode, dimReply, boostReply);
            && (!c.err <==> 1 <= mode <= 3 && (mode == 1 ==> hasDim)
                            && boostReply.Done? && (hasDim ==> dimReply.Done?))
            && (!c.err ==> GetMode(hasDim, Last(r, c.visited)) == mode && Interlocked(Last(r, c.visited)))
  {
  }

  /** The modes are told apart by the relays: 1 with dim on, 3 with boost on, 2 with neither; and a relay
      whose call failed is as the call left it. */
  lemma ModesAreRelays(hasDim: bool, r: Relays, mode: int, dimReply: Reply, boostReply: Reply)
    requires !hasDim ==> !r.dim
    ensures var c := SetMode(hasDim, r, mode, dimReply, boostReply);
            var last := Last(r, c.visited);
            && (!c.err ==> (last.dim <==> mode == 1) && (last.boost <==> mode == 3))
            && (last.boost == r.boost || last.boost == (mode == 3))
            && (last.dim == r.dim || last.dim == (mode == 1))
            && (boostReply == Failed(false) ==> last.boost == r.boost)
            && (dimReply == Failed(false) ==> last.dim == r.dim)
            && ((boostReply == Failed(true) && 1 <= mode <= 3 && (hasDim ==> mode == 1 || dimReply == Done)
                 && (mode == 1 ==> hasDim)) ==> last.boost == (mode == 3))
            && ((dimReply == Failed(true) && 1 <= mode <= 3 && hasDim && (mode == 1 ==> boostReply == Done))
                ==> last.dim == (mode == 1))
  {
  }

  datatype Command = Command(mode: int, dimReply: Reply, boostReply: Reply)

  /** Every relay state a sequence of mode changes passes through. */
  function Trace(hasDim: bool, r: Relays, cs: seq<Command>): seq<Relays> {
    if cs == [] then []
    else
      var before := Trace(hasDim, r, cs[..|cs| - 1]);
      var c := cs[|cs| - 1];
      before + SetMode(hasDim, Last(r, before), c.mode, c.dimReply, c.boostReply).visited
  }

  /** Boost and dim are never both on, at any point of any run. */
  lemma {:induction false} Interlock(hasDim: bool, r: Relays, cs: seq<Command>)
    requires Interlocked(r)
    requires !hasDim ==> !r.dim
    ensures forall x :: x in Trace(hasDim, r, cs) ==> Interlocked(x) && (!hasDim ==> !x.dim)
  {
    if cs != [] {
      var before := Trace(hasDim, r, cs[..|cs| - 1]);
      Interlock(hasDim, r, cs[..|cs| - 1]);
      assert before != [] ==> Last(r, before) in before;
      var c := cs[|cs| - 1];
      ChangeKeepsInterlock(hasDim, Last(r, before), c.mode, c.dimReply, c.boostReply);
    }
  }

  class RelayPair {
    const hasDim: bool
    var boost: bool
    var dim: bool

    function Abstract(): Relays
      reads this
    {
      Relays(boost, dim)
    }

    constructor (hasDim: bool, boost: bool, dim: bool)
      ensures this.hasDim == hasDim && Abstract() == Relays(boost, dim)
    {
      this.hasDim, this.boost, this.dim := hasDim, boost, dim;
    }

    method EnableBoost(on: bool, reply: Reply) returns (err: bool)
      modifies this`boost
      ensures err == !reply.Done? && Abstract() == SwitchBoost(old(Abstract()), on, reply)
    {
      if reply.Done? || reply.switched {
        boost := on;
      }
      err := !reply.Done?;
    }

    method EnableDim(on: bool, reply: Reply) returns (err: bool)
      modifies this`dim
      ensures err == !reply.Done? && Abstract() == SwitchDim(old(Abstract()), on, reply)
    {
      if reply.Done? || reply.switched {
        dim := on;
      }
      err := !reply.Done?;
    }

    method ModeS(mode: int, dimReply: Reply, boostReply: Reply) returns (visited: seq<Relays>, err: bool)
      modifies this
      ensures Change(visited, err) == SetMode(hasDim, old(Abstract()), mode, dimReply, boostReply)
      ensures Abstract() == Last(old(Abstract()), visited)
    {
      visited := [];
      if mode == DIM {
        if !hasDim {
          return visited, true;
        }
        err := EnableBoost(false, boostReply);
        visited := visited + [Abstract()];
        if err {
          return;
        }
        err := EnableDim(true, dimReply);
        visited := visited + [Abstract()];
      } else if mode == NORMAL || mode == BOOST {
        if hasDim {
          err := EnableDim(false, dimReply);
          visited := visited + [Abstract()];
          if err {
            return;
          }
        }
        err := EnableBoost(mode == BOOST, boostReply);
        visited := visited + [Abstract()];
      } else {
        err := true;
      }
    }

    /** Reads fail as told; the dim relay is asked first. */
    method ModeG(dimOk: bool, boostOk: bool) returns (mode: Option<int>)
      ensures mode == if (hasDim && !dimOk) || (!boostOk && !(hasDim && dim)) then None
                      else Some(GetMode(hasDim, Abstract()))
    {
      if hasDim {
        if !dimOk {
          return None;
        }
        if dim {
          return Some(DIM);
        }
      }
      if !boostOk {
        return None;
      }
      if boost {
        return Some(BOOST);
      }
      return Some(NORMAL);
    }
  }
}
