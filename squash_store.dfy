/**
 * The remote test-management REST API as an abstract oracle. The store logs
 * every request the adapter issues, in order; a GET answers with whatever the
 * server function gives for that endpoint; a POST answers with a fresh id
 * handed out from a counter; and any request whose position in the log is in
 * `failing` throws instead (a non-2xx status, a malformed body or a network
 * error: the handlers never distinguish them).
 */
module SquashStore {
  import opened Wrappers

  datatype Verb = GET | POST | DELETE

  datatype Request<P> = Request(verb: Verb, endpoint: string, body: Option<P>)

  /** What the handlers read back from a successful POST: the assigned id and the echoed name. */
  datatype Created = Created(id: int, name: string)

  /** No request at log positions pos .. pos+n-1 fails. */
  predicate AllOk(failing: set<nat>, pos: nat, n: nat) {
    forall i :: pos <= i < pos + n ==> i !in failing
  }

  /**
   * How many of n requests a sequential loop issues when its first request
   * lands at log position pos and it stops at the first failing one.
   */
  function Issued(failing: set<nat>, pos: nat, n: nat): (k: nat)
    ensures k <= n
    ensures n > 0 ==> k >= 1
    decreases n
  {
    if n == 0 then 0 else if pos in failing then 1 else 1 + Issued(failing, pos + 1, n - 1)
  }

  /** How many of the requests at positions pos .. pos+n-1 succeed. */
  function CountOk(failing: set<nat>, pos: nat, n: nat): nat
    decreases n
  {
    if n == 0 then 0 else (if pos in failing then 0 else 1) + CountOk(failing, pos + 1, n - 1)
  }

  /** A loop that stops at the first failure issues all n requests exactly when none fails. */
  lemma {:induction false} IssuedAllOk(failing: set<nat>, pos: nat, n: nat)
    requires AllOk(failing, pos, n)
    ensures Issued(failing, pos, n) == n
    ensures CountOk(failing, pos, n) == n
    decreases n
  {
    if n > 0 {
      IssuedAllOk(failing, pos + 1, n - 1);
    }
  }

  /** ... and when the request at offset i is the first to fail, it issues exactly i + 1 of them. */
  lemma {:induction false} IssuedFirstFailure(failing: set<nat>, pos: nat, n: nat, i: nat)
    requires i < n && AllOk(failing, pos, i) && pos + i in failing
    ensures Issued(failing, pos, n) == i + 1
    ensures !AllOk(failing, pos, n)
    decreases i
  {
    if i > 0 {
      IssuedFirstFailure(failing, pos + 1, n - 1, i - 1);
    }
  }

  /** A failure-free prefix grows by one request. */
  lemma AllOkExtend(failing: set<nat>, pos: nat, i: nat)
    requires AllOk(failing, pos, i) && pos + i !in failing
    ensures AllOk(failing, pos, i + 1)
  {
  }

  lemma {:induction false} CountOkExtend(failing: set<nat>, pos: nat, i: nat)
    ensures CountOk(failing, pos, i + 1) == CountOk(failing, pos, i) + (if pos + i in failing then 0 else 1)
    decreases i
  {
    if i > 0 {
      CountOkExtend(failing, pos + 1, i - 1);
    }
  }

  /** The POST requests a sequence of bodies produces, in order. */
  function Posts<P>(endpoint: string, bodies: seq<P>): (r: seq<Request<P>>)
    ensures |r| == |bodies|
    ensures forall i :: 0 <= i < |bodies| ==> r[i] == Request(POST, endpoint, Some(bodies[i]))
  {
    seq(|bodies|, i requires 0 <= i < |bodies| => Request(POST, endpoint, Some(bodies[i])))
  }

  /** Posting a and then b leaves the same log as posting a + b. */
  lemma PostsAppend<P>(log: seq<Request<P>>, endpoint: string, a: seq<P>, b: seq<P>)
    ensures log + Posts(endpoint, a) + Posts(endpoint, b) == log + Posts(endpoint, a + b)
  {
    assert Posts(endpoint, a) + Posts(endpoint, b) == Posts(endpoint, a + b);
  }

  /** The GET requests a sequence of endpoints produces, in order. */
  function Gets<P>(endpoints: seq<string>): (r: seq<Request<P>>)
    ensures |r| == |endpoints|
    ensures forall i :: 0 <= i < |endpoints| ==> r[i] == Request(GET, endpoints[i], None)
  {
    seq(|endpoints|, i requires 0 <= i < |endpoints| => Request(GET, endpoints[i], None))
  }

  class Store<P> {
    /** Every request issued so far, oldest first. */
    var log: seq<Request<P>>
    /** The id the next successful POST is given. */
    var nextId: int
    /** Log positions at which a request throws. */
    const failing: set<nat>
    /** The name the server reports back for a created resource. */
    const replyName: P -> string

    constructor (firstId: int, failing: set<nat>, replyName: P -> string)
      ensures log == [] && nextId == firstId
      ensures this.failing == failing && this.replyName == replyName
    {
      log := [];
      nextId := firstId;
      this.failing := failing;
      this.replyName := replyName;
    }

    /** `makeSquashRequest(endpoint, "GET")`: the server's answer for that endpoint, unless the request fails. */
    method Get<T>(endpoint: string, server: string -> T) returns (r: Option<T>)
      modifies this`log
      ensures log == old(log) + [Request(GET, endpoint, None)]
      ensures r == if |old(log)| in failing then None else Some(server(endpoint))
    {
      r := if |log| in failing then None else Some(server(endpoint));
      log := log + [Request(GET, endpoint, None)];
    }

    /** `makeSquashRequest(endpoint, "POST", body)`: a fresh id, unless the request fails. */
    method Post(endpoint: string, body: P) returns (r: Option<Created>)
      modifies this
      ensures log == old(log) + [Request(POST, endpoint, Some(body))]
      ensures |old(log)| in failing ==> r == None && nextId == old(nextId)
      ensures |old(log)| !in failing ==>
                r == Some(Created(old(nextId), replyName(body))) && nextId == old(nextId) + 1
    {
      if |log| in failing {
        r := None;
      } else {
        r := Some(Created(nextId, replyName(body)));
        nextId := nextId + 1;
      }
      log := log + [Request(POST, endpoint, Some(body))];
    }

    /** `makeSquashRequest(endpoint, "DELETE")`: whether it succeeded. */
    method Delete(endpoint: string) returns (ok: bool)
      modifies this`log
      ensures log == old(log) + [Request(DELETE, endpoint, None)]
      ensures ok == (|old(log)| !in failing)
    {
      ok := |log| !in failing;
      log := log + [Request(DELETE, endpoint, None)];
    }

    /**
     * A `for (const x of xs) { await POST }` loop: the bodies are posted one
     * after the other and the first failure ends the loop (and the handler).
     */
    method PostEach(endpoint: string, bodies: seq<P>) returns (r: Option<seq<Created>>)
      modifies this
      ensures log == old(log) + Posts(endpoint, bodies[..Issued(failing, |old(log)|, |bodies|)])
      ensures r.Some? <==> AllOk(failing, |old(log)|, |bodies|)
      ensures r.Some? ==> nextId == old(nextId) + |bodies| && |r.value| == |bodies| &&
                          forall i :: 0 <= i < |bodies| ==> r.value[i] == Created(old(nextId) + i, replyName(bodies[i]))
      ensures r.None? ==> nextId == old(nextId) + Issued(failing, |old(log)|, |bodies|) - 1
    {
      var pos := |log|;
      var done: seq<Created> := [];
      var i := 0;
      while i < |bodies|
        invariant 0 <= i <= |bodies|
        invariant AllOk(failing, pos, i)
        invariant log == old(log) + Posts(endpoint, bodies[..i])
        invariant nextId == old(nextId) + i
        invariant |done| == i
        invariant forall j :: 0 <= j < i ==> done[j] == Created(old(nextId) + j, replyName(bodies[j]))
      {
        var c := Post(endpoint, bodies[i]);
        assert Posts(endpoint, bodies[..i]) + [Request(POST, endpoint, Some(bodies[i]))] == Posts(endpoint, bodies[..i + 1]);
        if c.None? {
          IssuedFirstFailure(failing, pos, |bodies|, i);
          return None;
        }
        AllOkExtend(failing, pos, i);
        done := done + [c.value];
        i := i + 1;
      }
      IssuedAllOk(failing, pos, |bodies|);
      assert bodies[..|bodies|] == bodies;
      r := Some(done);
    }

    /**
     * `Promise.all(xs.map(x => POST))`: every body is posted, in order, and
     * the whole fails when any of them fails.
     */
    method PostAll(endpoint: string, bodies: seq<P>) returns (r: Option<seq<Created>>)
      modifies this
      ensures log == old(log) + Posts(endpoint, bodies)
      ensures r.Some? <==> AllOk(failing, |old(log)|, |bodies|)
      ensures r.Some? ==> |r.value| == |bodies| &&
                          forall i :: 0 <= i < |bodies| ==> r.value[i] == Created(old(nextId) + i, replyName(bodies[i]))
      ensures nextId == old(nextId) + CountOk(failing, |old(log)|, |bodies|)
    {
      var pos := |log|;
      var done: seq<Created> := [];
      var ok := true;
      var i := 0;
      while i < |bodies|
        invariant 0 <= i <= |bodies|
        invariant ok <==> AllOk(failing, pos, i)
        invariant log == old(log) + Posts(endpoint, bodies[..i])
        invariant nextId == old(nextId) + CountOk(failing, pos, i)
        invariant ok ==> |done| == i && CountOk(failing, pos, i) == i
        invariant ok ==> forall j :: 0 <= j < i ==> done[j] == Created(old(nextId) + j, replyName(bodies[j]))
      {
        var c := Post(endpoint, bodies[i]);
        assert Posts(endpoint, bodies[..i]) + [Request(POST, endpoint, Some(bodies[i]))] == Posts(endpoint, bodies[..i + 1]);
        CountOkExtend(failing, pos, i);
        if c.Some? {
          if ok {
            AllOkExtend(failing, pos, i);
          }
          done := done + [c.value];
        } else {
          ok := false;
        }
        i := i + 1;
      }
      assert bodies[..|bodies|] == bodies;
      r := if ok then Some(done) else None;
    }

    /**
     * `Promise.all(endpoints.map(e => GET e))`: every endpoint is requested,
     * in order, and the whole fails when any request fails.
     */
    method GetAll<T>(endpoints: seq<string>, server: string -> T) returns (r: Option<seq<T>>)
      modifies this`log
      ensures log == old(log) + Gets(endpoints)
      ensures r.Some? <==> AllOk(failing, |old(log)|, |endpoints|)
      ensures r.Some? ==> |r.value| == |endpoints| &&
                          forall i :: 0 <= i < |endpoints| ==> r.value[i] == server(endpoints[i])
    {
      var pos := |log|;
      var got: seq<T> := [];
      var ok := true;
      var i := 0;
      while i < |endpoints|
        invariant 0 <= i <= |endpoints|
        invariant ok <==> AllOk(failing, pos, i)
        invariant log == old(log) + Gets(endpoints[..i])
        invariant |got| == i
        invariant forall j :: 0 <= j < i ==> got[j] == server(endpoints[j])
      {
        var g := Get(endpoints[i], server);
        assert Gets(endpoints[..i]) + [Request(GET, endpoints[i], None)] == Gets<P>(endpoints[..i + 1]);
        if g.None? {
          ok := false;
        } else if ok {
          AllOkExtend(failing, pos, i);
        }
        got := got + [server(endpoints[i])];
        i := i + 1;
      }
      assert endpoints[..|endpoints|] == endpoints;
      r := if ok then Some(got) else None;
    }
  }
}
