/** The inrush arbiter: fixed priority, lowest index first, no preemption, registered grant. */
module InrushArb {

  /** The lowest-index requester, one-hot, or all low. */
  function Pick(req: seq<bool>): (pick: seq<bool>)
    ensures |pick| == |req|
  {
    seq(|req|, i requires 0 <= i < |req| => req[i] && forall j :: 0 <= j < i ==> !req[j])
  }

  predicate Held(gnt: seq<bool>, req: seq<bool>)
    requires |gnt| == |req|
  {
    exists i :: 0 <= i < |req| && gnt[i] && req[i]
  }

  function NextGrant(gnt: seq<bool>, req: seq<bool>): (r: seq<bool>)
    requires |gnt| == |req|
    ensures |r| == |req|
  {
    if Held(gnt, req) then gnt else Pick(req)
  }

  ghost predicate OneHotOrZero(v: seq<bool>) {
    forall i, j :: 0 <= i < |v| && 0 <= j < |v| && v[i] && v[j] ==> i == j
  }

  /** The arbiter's law, for any requests: the grant stays one-hot or zero, a requesting holder
      keeps it, and a free grant goes to the lowest-index requester if there is one. */
  lemma ArbiterLaw(gnt: seq<bool>, req: seq<bool>)
    requires |gnt| == |req| && OneHotOrZero(gnt)
    ensures var g := NextGrant(gnt, req);
            && OneHotOrZero(g)
            && (forall i :: 0 <= i < |req| && gnt[i] && req[i] ==> g[i])
            && (!Held(gnt, req) ==>
                  forall i :: 0 <= i < |req| ==> (g[i] <==> req[i] && forall j :: 0 <= j < i ==> !req[j]))
            && (true in req ==> true in g)
  {
    if Held(gnt, req) {
      var i :| 0 <= i < |req| && gnt[i] && req[i];
      assert gnt[i] in gnt;
    } else if true in req {
      var i := Lowest(req);
      assert Pick(req)[i] in Pick(req);
    }
  }

  lemma Lowest(req: seq<bool>) returns (i: nat)
    requires true in req
    ensures i < |req| && req[i] && forall j :: 0 <= j < i ==> !req[j]
  {
    i := 0;
    while !req[i]
      invariant i < |req| && true in req[i..] && forall j :: 0 <= j < i ==> !req[j]
      decreases |req| - i
    {
      i := i + 1;
    }
  }

  class Arbiter {
    var gnt: seq<bool>

    constructor (n: nat)
      ensures gnt == seq(n, _ => false)
    {
      gnt := seq(n, _ => false);
    }

    method Reset()
      modifies this
      ensures gnt == seq(old(|gnt|), _ => false)
    {
      gnt := seq(|gnt|, _ => false);
    }

    /** The pick loop: the first requester sets its bit, and then no bit is free to set. */
    method LowestRequester(req: seq<bool>) returns (pick: seq<bool>)
      ensures pick == Pick(req)
    {
      pick := seq(|req|, _ => false);
      var none := true;
      for i := 0 to |req|
        invariant |pick| == |req|
        invariant none <==> forall j :: 0 <= j < i ==> !req[j]
        invariant forall k :: 0 <= k < i ==> (pick[k] <==> req[k] && forall j :: 0 <= j < k ==> !req[j])
        invariant forall k :: i <= k < |req| ==> !pick[k]
      {
        if req[i] && none {
          pick := pick[i := true];
          none := false;
        }
      }
      assert forall k :: 0 <= k < |req| ==> pick[k] == Pick(req)[k];
    }

    method Tick(req: seq<bool>)
      requires |req| == |gnt|
      modifies this
      ensures gnt == NextGrant(old(gnt), req)
    {
      var held := false;
      for i := 0 to |req|
        invariant held <==> exists j :: 0 <= j < i && gnt[j] && req[j]
        invariant gnt == old(gnt)
      {
        held := held || (gnt[i] && req[i]);
      }
      if !held {
        gnt := LowestRequester(req);
      }
    }
  }
}
