// The sender thread of a ZmqSender and its pool of sockets (src/remote.rs).
module SocketCache {
  import opened Vocabulary

  type Data = string

  datatype Request = Request(endpoint: Endpoint, data: Data)

  // The data of the requests for one endpoint, in order.
  function For(reqs: seq<Request>, e: Endpoint): seq<Data> {
    if reqs == [] then []
    else
      var n := |reqs| - 1;
      For(reqs[..n], e) + if reqs[n].endpoint == e then [reqs[n].data] else []
  }

  // The first request for `e` at which a connect succeeds; `up[i]` tells whether one made for
  // request `i` would.
  function FirstUp(reqs: seq<Request>, up: seq<bool>, e: Endpoint): (k: nat)
    requires |up| == |reqs|
    ensures k <= |reqs|
    ensures k < |reqs| ==> reqs[k].endpoint == e && up[k]
    ensures forall j | 0 <= j < k :: !(reqs[j].endpoint == e && up[j])
  {
    if reqs == [] then 0
    else
      var n := |reqs| - 1;
      var k := FirstUp(reqs[..n], up[..n], e);
      if k < n || (reqs[n].endpoint == e && up[n]) then k else n + 1
  }

  lemma ForSnoc(reqs: seq<Request>, r: Request, e: Endpoint)
    ensures For(reqs + [r], e) == For(reqs, e) + if r.endpoint == e then [r.data] else []
  {
    assert (reqs + [r])[..|reqs|] == reqs;
  }

  // Sends for which a connect is made: those up to the first that succeeds.
  function Tries(reqs: seq<Request>, up: seq<bool>, e: Endpoint): nat
    requires |up| == |reqs|
  {
    var k := FirstUp(reqs, up, e);
    |For(reqs[..if k < |reqs| then k + 1 else k], e)|
  }

  lemma UpMore(reqs: seq<Request>, up: seq<bool>, i: nat, e: Endpoint)
    requires |up| == |reqs| && i < |reqs|
    ensures var k := FirstUp(reqs[..i], up[..i], e);
            FirstUp(reqs[..i + 1], up[..i + 1], e)
            == if k < i || (reqs[i].endpoint == e && up[i]) then k else i + 1
  {
    assert reqs[..i + 1][..i] == reqs[..i] && up[..i + 1][..i] == up[..i];
  }

  lemma DataMore(reqs: seq<Request>, i: nat, e: Endpoint, k: nat)
    requires k <= i < |reqs|
    ensures For(reqs[..i + 1][k..], e)
            == For(reqs[..i][k..], e) + if reqs[i].endpoint == e then [reqs[i].data] else []
  {
    hide For;
    assert reqs[..i + 1][k..] == reqs[..i][k..] + [reqs[i]];
    ForSnoc(reqs[..i][k..], reqs[i], e);
  }

  lemma TriesMore(reqs: seq<Request>, up: seq<bool>, i: nat, e: Endpoint)
    requires |up| == |reqs| && i < |reqs|
    ensures var k := FirstUp(reqs[..i], up[..i], e);
            Tries(reqs[..i + 1], up[..i + 1], e)
            == Tries(reqs[..i], up[..i], e) + if k == i && reqs[i].endpoint == e then 1 else 0
  {
    hide FirstUp, For;
    UpMore(reqs, up, i, e);
    var k := FirstUp(reqs[..i], up[..i], e);
    if k < i {
      assert reqs[..i + 1][..k + 1] == reqs[..i][..k + 1];
    } else {
      assert reqs[..i + 1][..i + 1] == reqs[..i] + [reqs[i]];
      assert reqs[..i][..i] == reqs[..i];
      ForSnoc(reqs[..i], reqs[i], e);
    }
  }

  lemma OneMore(reqs: seq<Request>, up: seq<bool>, i: nat, e: Endpoint)
    requires |up| == |reqs| && i < |reqs|
    ensures var k := FirstUp(reqs[..i], up[..i], e);
            var k' := FirstUp(reqs[..i + 1], up[..i + 1], e);
            && k' == (if k < i || (reqs[i].endpoint == e && up[i]) then k else i + 1)
            && For(reqs[..i + 1][k'..], e)
               == (if k' <= i then For(reqs[..i][k'..], e) else [])
                  + (if k' <= i && reqs[i].endpoint == e then [reqs[i].data] else [])
            && Tries(reqs[..i + 1], up[..i + 1], e)
               == Tries(reqs[..i], up[..i], e) + if k == i && reqs[i].endpoint == e then 1 else 0
  {
    hide FirstUp, For, Tries;
    UpMore(reqs, up, i, e);
    TriesMore(reqs, up, i, e);
    var k := FirstUp(reqs[..i + 1], up[..i + 1], e);
    if k <= i {
      DataMore(reqs, i, e, k);
    } else {
      assert reqs[..i + 1][k..] == [];
      assert For([], e) == [] by { NoneFor(e); }
    }
  }

  lemma NoneFor(e: Endpoint)
    ensures For([], e) == []
  {
  }

  function Count(tries: map<Endpoint, nat>, e: Endpoint): nat {
    if e in tries then tries[e] else 0
  }

  // For endpoint `e` the pool has done what a sender without a pool would do that connects for each
  // request until a connect succeeds: it has handed over just the requests from then on, in order,
  // and connected once for each one until then and never again.
  predicate Serves(sockets: map<Endpoint, seq<Data>>, tries: map<Endpoint, nat>,
                   reqs: seq<Request>, up: seq<bool>, e: Endpoint)
    requires |up| == |reqs|
  {
    var k := FirstUp(reqs, up, e);
    && (e in sockets <==> k < |reqs|)
    && (e in sockets ==> sockets[e] == For(reqs[k..], e))
    && Count(tries, e) == Tries(reqs, up, e)
  }

  lemma OneMoreServes(sockets: map<Endpoint, seq<Data>>, tries: map<Endpoint, nat>,
                      sockets': map<Endpoint, seq<Data>>, tries': map<Endpoint, nat>,
                      reqs: seq<Request>, up: seq<bool>, i: nat, e: Endpoint)
    requires |up| == |reqs| && i < |reqs| && Serves(sockets, tries, reqs[..i], up[..i], e)
    requires reqs[i].endpoint != e ==>
               (e in sockets' <==> e in sockets) && (e in sockets ==> sockets'[e] == sockets[e])
               && Count(tries', e) == Count(tries, e)
    requires reqs[i].endpoint == e && e in sockets ==>
               e in sockets' && sockets'[e] == sockets[e] + [reqs[i].data] && Count(tries', e) == Count(tries, e)
    requires reqs[i].endpoint == e && e !in sockets ==>
               (e in sockets' <==> up[i]) && (up[i] ==> sockets'[e] == [reqs[i].data])
               && Count(tries', e) == Count(tries, e) + 1
    ensures Serves(sockets', tries', reqs[..i + 1], up[..i + 1], e)
  {
    OneMore(reqs, up, i, e);
    var k := FirstUp(reqs[..i], up[..i], e);
    if k == i {
      assert reqs[..i][i..] == [];
    }
    hide FirstUp, For, Tries;
  }

  ghost predicate ServesAll(sockets: map<Endpoint, seq<Data>>, tries: map<Endpoint, nat>,
                            reqs: seq<Request>, up: seq<bool>)
    requires |up| == |reqs|
  {
    forall e :: Serves(sockets, tries, reqs, up, e)
  }

  // The body of the loop.  `sockets[e]` is what has been handed to the socket of `e`, and `tries[e]`
  // counts the connects made for `e`.
  method Send(req: Request, connects: bool, sockets0: map<Endpoint, seq<Data>>, tries0: map<Endpoint, nat>)
    returns (sockets: map<Endpoint, seq<Data>>, tries: map<Endpoint, nat>)
    ensures forall e | e != req.endpoint ::
              (e in sockets <==> e in sockets0) && (e in sockets0 ==> sockets[e] == sockets0[e])
              && Count(tries, e) == Count(tries0, e)
    ensures var e := req.endpoint;
            if e in sockets0 then
              e in sockets && sockets[e] == sockets0[e] + [req.data] && Count(tries, e) == Count(tries0, e)
            else
              (e in sockets <==> connects) && (connects ==> sockets[e] == [req.data])
              && Count(tries, e) == Count(tries0, e) + 1
  {
    sockets, tries := sockets0, tries0;
    if req.endpoint !in sockets {
      tries := tries[req.endpoint := Count(tries, req.endpoint) + 1];
      if connects {
        sockets := sockets[req.endpoint := []];
      }
    }
    if req.endpoint in sockets {
      sockets := sockets[req.endpoint := sockets[req.endpoint] + [req.data]];
    }
  }

  // The sender thread, for any sequence of requests and any outcomes of the connects.
  method SenderLoop(reqs: seq<Request>, up: seq<bool>)
    returns (sockets: map<Endpoint, seq<Data>>, tries: map<Endpoint, nat>)
    requires |up| == |reqs|
    ensures ServesAll(sockets, tries, reqs, up)
  {
    sockets, tries := map[], map[];
    var i := 0;
    while i < |reqs|
      invariant 0 <= i <= |reqs|
      invariant ServesAll(sockets, tries, reqs[..i], up[..i])
    {
      ghost var sockets0, tries0 := sockets, tries;
      sockets, tries := Send(reqs[i], up[i], sockets, tries);
      AllOneMore(sockets0, tries0, sockets, tries, reqs, up, i);
      i := i + 1;
    }
    assert reqs[..i] == reqs && up[..i] == up;
  }

  lemma AllOneMore(sockets: map<Endpoint, seq<Data>>, tries: map<Endpoint, nat>,
                   sockets': map<Endpoint, seq<Data>>, tries': map<Endpoint, nat>,
                   reqs: seq<Request>, up: seq<bool>, i: nat)
    requires |up| == |reqs| && i < |reqs| && ServesAll(sockets, tries, reqs[..i], up[..i])
    requires forall e | e != reqs[i].endpoint ::
              (e in sockets' <==> e in sockets) && (e in sockets ==> sockets'[e] == sockets[e])
              && Count(tries', e) == Count(tries, e)
    requires var e := reqs[i].endpoint;
            if e in sockets then
              e in sockets' && sockets'[e] == sockets[e] + [reqs[i].data] && Count(tries', e) == Count(tries, e)
            else
              (e in sockets' <==> up[i]) && (up[i] ==> sockets'[e] == [reqs[i].data])
              && Count(tries', e) == Count(tries, e) + 1
    ensures ServesAll(sockets', tries', reqs[..i + 1], up[..i + 1])
  {
    hide FirstUp, For, Tries;
    var reqs1, up1 := reqs[..i + 1], up[..i + 1];
    forall e: Endpoint ensures Serves(sockets', tries', reqs1, up1, e) {
      OneMoreServes(sockets, tries, sockets', tries', reqs, up, i, e);
    }
  }
}
