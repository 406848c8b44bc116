/** Payload stations of an aircraft profile. */
module {:induction false} Stations {
  import opened Options
  import opened Weights

  datatype Side = Left | Right

  /** One payload station. `side` and `hold` are what the name tests of the source return:
      the L/R or pilot/copilot side, and whether the name reads like a centre-line hold. */
  datatype Station = Station(index: int, maxLoad: real, arm: Option<real>, side: Option<Side>, hold: bool)

  type Profile = seq<Station>

  /** The first station carrying the index. */
  function Lookup(p: Profile, idx: int): Option<Station> {
    if p == [] then None
    else if p[0].index == idx then Some(p[0])
    else Lookup(p[1..], idx)
  }

  predicate Known(p: Profile, idx: int) {
    Lookup(p, idx).Some?
  }

  /** Structural limit; an unknown station holds nothing. */
  function HardCap(p: Profile, idx: int): real {
    match Lookup(p, idx)
    case None => 0.0
    case Some(s) => s.maxLoad
  }

  /** Structural limit lowered by the optional soft limit. */
  function EffectiveCap(p: Profile, softMax: Load, idx: int): real {
    if idx in softMax then Min(HardCap(p, idx), softMax[idx]) else HardCap(p, idx)
  }

  function Caps(p: Profile, softMax: Load, ids: seq<int>): Load {
    map i | i in ids :: EffectiveCap(p, softMax, i)
  }

  function ArmOf(p: Profile, idx: int): Option<real> {
    match Lookup(p, idx)
    case None => None
    case Some(s) => s.arm
  }

  /** The stations of a list of indexes, in list order; unknown indexes drop out. */
  function Resolve(p: Profile, ids: seq<int>): seq<Station> {
    if ids == [] then []
    else match Lookup(p, ids[0])
      case None => Resolve(p, ids[1..])
      case Some(s) => [s] + Resolve(p, ids[1..])
  }

  function Indexes(ss: seq<Station>): seq<int> {
    seq(|ss|, k requires 0 <= k < |ss| => ss[k].index)
  }

  /** What the planner takes for granted about a profile. */
  ghost predicate WellFormed(p: Profile) {
    && (forall j, k :: 0 <= j < k < |p| ==> p[j].index != p[k].index)
    && (forall s <- p :: s.maxLoad >= 0.0)
  }

  lemma {:induction false} LookupHit(p: Profile, idx: int)
    ensures match Lookup(p, idx)
            case None => forall s <- p :: s.index != idx
            case Some(s) => s in p && s.index == idx
  {
    if p != [] && p[0].index != idx {
      LookupHit(p[1..], idx);
      assert p == [p[0]] + p[1..];
    }
  }

  /** With distinct indexes, looking a station up returns that station. */
  lemma {:induction false} LookupSelf(p: Profile, k: nat)
    requires WellFormed(p) && k < |p|
    ensures Lookup(p, p[k].index) == Some(p[k])
  {
    if k > 0 {
      assert WellFormed(p[1..]) by {
        forall s | s in p[1..] ensures s.maxLoad >= 0.0 {
          assert s in p;
        }
      }
      LookupSelf(p[1..], k - 1);
    }
  }

  lemma {:induction false} ResolveMember(p: Profile, ids: seq<int>, s: Station)
    ensures s in Resolve(p, ids) <==> s.index in ids && Lookup(p, s.index) == Some(s)
  {
    if ids != [] {
      LookupHit(p, ids[0]);
      ResolveMember(p, ids[1..], s);
      assert ids == [ids[0]] + ids[1..];
    }
  }

  ghost predicate DistinctIndex(ss: seq<Station>) {
    forall j, k :: 0 <= j < k < |ss| ==> ss[j].index != ss[k].index
  }

  lemma {:induction false} ResolveDistinct(p: Profile, ids: seq<int>)
    requires NoDup(ids)
    ensures DistinctIndex(Resolve(p, ids))
  {
    if ids != [] {
      LookupHit(p, ids[0]);
      ResolveDistinct(p, ids[1..]);
      var rest := Resolve(p, ids[1..]);
      forall k | 0 <= k < |rest| ensures rest[k].index != ids[0] {
        ResolveMember(p, ids[1..], rest[k]);
      }
    }
  }
}
