/** Project03/Reactive/HttpServer.cs: the observable HTTP server. Observers subscribe into
    a duplicate-free list; each valid request is broadcast to them in list order
    (Project03/Utils/ObserverListExtensions.cs). */
module ReactiveServer {
  import opened Results
  import opened Http
  import opened Sequences

  /** What an observer has been told: `OnNext` with the requested id, or `OnError`. */
  datatype Notification = Next(restaurantId: string) | Error(message: string)

  /** A subscriber. Its `OnNext` is code this model cannot see; `failsWith` says whether
      that code throws, and with which message. */
  class Observer {
    const failsWith: Option<string>
    var received: seq<Notification>

    constructor (failsWith: Option<string>)
      ensures this.failsWith == failsWith && received == []
    {
      this.failsWith := failsWith;
      received := [];
    }

    method OnNext(id: string) returns (failure: Option<string>)
      modifies this
      ensures received == old(received) + [Next(id)]
      ensures failure == failsWith
    {
      received := received + [Next(id)];
      failure := failsWith;
    }

    method OnError(message: string)
      modifies this
      ensures received == old(received) + [Error(message)]
    {
      received := received + [Error(message)];
    }
  }

  /** `List.Remove`: drops the first occurrence of `x`, if any. */
  function RemoveFirst<T(==)>(s: seq<T>, x: T): (r: seq<T>)
    ensures x !in s ==> r == s
    ensures x in s ==> |r| == |s| - 1
    ensures multiset(r) == multiset(s) - multiset{x}
  {
    if s == [] then []
    else
      assert s == [s[0]] + s[1..];
      if s[0] == x then s[1..]
      else [s[0]] + RemoveFirst(s[1..], x)
  }

  /** The position of the first occurrence of `x` in `s`. */
  function IndexOf<T(==)>(s: seq<T>, x: T): (i: nat)
    requires x in s
    ensures i < |s| && s[i] == x
    ensures forall j :: 0 <= j < i ==> s[j] != x
  {
    if s[0] == x then 0 else 1 + IndexOf(s[1..], x)
  }

  /** Removing `x` cuts exactly its first occurrence out and keeps the rest in order. */
  lemma {:induction false} RemoveFirstSplices<T>(s: seq<T>, x: T)
    requires x in s
    ensures RemoveFirst(s, x) == s[..IndexOf(s, x)] + s[IndexOf(s, x) + 1..]
  {
    if s[0] != x {
      var t := s[1..];
      RemoveFirstSplices(t, x);
      SpliceCons(s[0], t, IndexOf(t, x));
      assert s == [s[0]] + t;
      assert RemoveFirst(s, x) == [s[0]] + RemoveFirst(t, x);
      assert IndexOf(s, x) == IndexOf(t, x) + 1;
    }
  }

  /** Cutting position `k + 1` out of `[h] + t` is cutting position `k` out of `t`. */
  lemma SpliceCons<T>(h: T, t: seq<T>, k: nat)
    requires k < |t|
    ensures ([h] + t)[..k + 1] + ([h] + t)[k + 2..] == [h] + (t[..k] + t[k + 1..])
  {
    assert ([h] + t)[..k + 1] == [h] + t[..k];
    assert ([h] + t)[k + 2..] == t[k + 1..];
  }

  /** Removing from a duplicate-free list keeps it duplicate-free and leaves no copy of `x`. */
  lemma RemoveFirstFromDistinct<T>(s: seq<T>, x: T)
    requires NoDuplicates(s)
    ensures NoDuplicates(RemoveFirst(s, x))
    ensures x !in RemoveFirst(s, x)
  {
    if x in s {
      var k := IndexOf(s, x);
      RemoveFirstSplices(s, x);
      SpliceFromDistinct(s, k);
    }
  }

  /** Cutting position `k` out of a duplicate-free list leaves a duplicate-free list
      without `s[k]`. */
  lemma SpliceFromDistinct<T>(s: seq<T>, k: nat)
    requires NoDuplicates(s) && k < |s|
    ensures NoDuplicates(s[..k] + s[k + 1..])
    ensures s[k] !in s[..k] + s[k + 1..]
  {
    var r := s[..k] + s[k + 1..];
    assert |r| == |s| - 1;
    assert forall i :: 0 <= i < |r| ==> r[i] == s[if i < k then i else i + 1];
    forall i | 0 <= i < |r| ensures r[i] != s[k] {
      if i >= k { assert r[i] == s[i + 1]; }
    }
  }

  /** How the `id` check of `HandleRequest` ends. */
  datatype Decision = Rejected(response: Response) | Accepted(id: string)

  function Validate(req: Request): (d: Decision)
    ensures req.httpMethod != "GET" ==> d == Rejected(MethodNotAllowed())
    ensures d.Accepted? <==> req.httpMethod == "GET" && !IsNullOrEmpty(Get(req, "id"))
    ensures d.Accepted? ==> Get(req, "id") == Some(d.id) && d.id != ""
    ensures req.httpMethod == "GET" && IsNullOrEmpty(Get(req, "id")) ==>
      d == Rejected(BadRequest("Missing id GET parameter"))
  {
    var id := Get(req, "id");
    if req.httpMethod != "GET" then Rejected(MethodNotAllowed())
    else if IsNullOrEmpty(id) then Rejected(BadRequest("Missing id GET parameter"))
    else Accepted(id.value)
  }

  /** The index of the first observer whose `OnNext` throws, or `|obs|` when none does. */
  function FirstFailure(obs: seq<Observer>): (k: nat)
    ensures k <= |obs|
    ensures forall i :: 0 <= i < k ==> obs[i].failsWith.None?
    ensures k < |obs| ==> obs[k].failsWith.Some?
  {
    if obs == [] then 0
    else if obs[0].failsWith.Some? then 0
    else 1 + FirstFailure(obs[1..])
  }

  /** What the broadcast of `id` appends to the inbox of observer `i`: `OnNext` up to and
      including the first observer that throws, then `OnError` to everybody when one did. */
  function Delivered(obs: seq<Observer>, i: nat, id: string): (r: seq<Notification>)
    requires i < |obs|
    ensures FirstFailure(obs) == |obs| ==> r == [Next(id)]
    ensures FirstFailure(obs) < |obs| ==>
      r == (if i <= FirstFailure(obs) then [Next(id)] else []) + [Error(obs[FirstFailure(obs)].failsWith.value)]
  {
    var k := FirstFailure(obs);
    (if i <= k then [Next(id)] else []) + (if k < |obs| then [Error(obs[k].failsWith.value)] else [])
  }

  /** `observers.OnNext(value)` of Project03/Utils/ObserverListExtensions.cs: each
      observer in list order, stopping at the first one that throws; `failure` is what it
      threw. */
  method NotifyNext(observers: seq<Observer>, id: string) returns (failure: Option<string>)
    requires NoDuplicates(observers)
    modifies set o | o in observers
    ensures failure == if FirstFailure(observers) == |observers| then None
                       else observers[FirstFailure(observers)].failsWith
    ensures forall j :: 0 <= j < |observers| ==>
      observers[j].received == old(observers[j].received) + (if j <= FirstFailure(observers) then [Next(id)] else [])
  {
    var i := 0;
    failure := None;
    while i < |observers| && failure.None?
      invariant 0 <= i <= |observers|
      invariant failure.None? ==> forall j :: 0 <= j < i ==> observers[j].failsWith.None?
      invariant failure.Some? ==> 0 < i && FirstFailure(observers) == i - 1 && failure == observers[i - 1].failsWith
      invariant forall j :: 0 <= j < |observers| ==>
        observers[j].received == old(observers[j].received) + (if j < i then [Next(id)] else [])
    {
      failure := observers[i].OnNext(id);
      i := i + 1;
    }
  }

  /** `observers.OnError(ex)`: every observer, in list order. */
  method NotifyError(observers: seq<Observer>, message: string)
    requires NoDuplicates(observers)
    modifies set o | o in observers
    ensures forall j :: 0 <= j < |observers| ==>
      observers[j].received == old(observers[j].received) + [Error(message)]
  {
    var m := 0;
    while m < |observers|
      invariant 0 <= m <= |observers|
      invariant forall j :: 0 <= j < |observers| ==>
        observers[j].received == old(observers[j].received) + (if j < m then [Error(message)] else [])
    {
      observers[m].OnError(message);
      m := m + 1;
    }
  }

  /** The server: its subscribers, in subscription order. */
  class HttpServer {
    var observers: seq<Observer>

    ghost predicate Valid()
      reads this
    {
      NoDuplicates(observers)
    }

    constructor ()
      ensures Valid() && observers == []
    {
      observers := [];
    }

    /** Adds `observer` unless it is already subscribed, and returns the handle whose
        disposal unsubscribes it. */
    method Subscribe(observer: Observer) returns (handle: Subscription)
      requires Valid()
      modifies this
      ensures Valid()
      ensures observers == if observer in old(observers) then old(observers) else old(observers) + [observer]
      ensures fresh(handle) && handle.server == this && handle.observer == observer && !handle.disposed
    {
      if observer !in observers {
        observers := observers + [observer];
      }
      handle := new Subscription(this, observer);
    }

    /** One request. `resp` is the response the server writes itself; `None` when every
        observer accepted the notification, which leaves the response to them. */
    method HandleRequest(req: Request) returns (resp: Option<Response>)
      requires Valid()
      modifies set o | o in observers
      ensures Validate(req).Rejected? ==>
        && resp == Some(Validate(req).response)
        && forall i :: 0 <= i < |observers| ==> observers[i].received == old(observers[i].received)
      ensures Validate(req).Accepted? ==>
        && resp == (if FirstFailure(observers) == |observers| then None
                    else Some(InternalServerError(observers[FirstFailure(observers)].failsWith.value)))
        && forall i :: 0 <= i < |observers| ==>
             observers[i].received == old(observers[i].received) + Delivered(observers, i, Validate(req).id)
    {
      var decision := Validate(req);
      if decision.Rejected? {
        return Some(decision.response);
      }
      var id := decision.id;
      var failure := NotifyNext(observers, id);
      if failure.None? {
        return None;
      }
      NotifyError(observers, failure.value);
      resp := Some(InternalServerError(failure.value));
    }
  }

  /** The handle `Disposable.Create` returns: its action runs on the first disposal only. */
  class Subscription {
    const server: HttpServer
    const observer: Observer
    var disposed: bool

    constructor (server: HttpServer, observer: Observer)
      ensures this.server == server && this.observer == observer && !disposed
    {
      this.server := server;
      this.observer := observer;
      disposed := false;
    }

    method Dispose()
      requires server.Valid()
      modifies this, server
      ensures server.Valid() && disposed
      ensures server.observers == if old(disposed) then old(server.observers) else RemoveFirst(old(server.observers), observer)
      ensures observer !in server.observers || old(disposed)
    {
      if !disposed {
        RemoveFirstFromDistinct(server.observers, observer);
        server.observers := RemoveFirst(server.observers, observer);
        disposed := true;
      }
    }
  }
}
