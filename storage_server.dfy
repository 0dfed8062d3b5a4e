/**
  The storage server of the power station: it owns the fuel store, refills
  it from a producer thread, and answers two text requests from clients,
  "POP" (take the front unit) and "SIZE" (report how many units are stored).
  Replies are the decimal text of one integer.
 */
module StorageServer {
  import opened Wire
  import opened FuelStore

  const PopRequest := "POP"
  const SizeRequest := "SIZE"

  /** `strncmp(buffer, p, |p|) == 0` on the NUL-terminated request buffer. */
  predicate StartsWith(s: seq<char>, p: seq<char>) {
    |p| <= |s| && s[..|p|] == p
  }

  /** What one request does: the integer replied, if any, and the store afterwards. */
  datatype Served = Served(reply: Option<int>, store: seq<int>)

  function Serve(q: seq<int>, request: seq<char>): (r: Served)
    // POP on a non-empty store hands out the oldest unit and removes exactly it
    ensures StartsWith(request, PopRequest) && q != [] ==> r.reply == Some(q[0]) && r.store == q[1..]
    // POP on an empty store replies -1 and takes nothing
    ensures StartsWith(request, PopRequest) && q == [] ==> r.reply == Some(-1) && r.store == q
    // SIZE reports the length and takes nothing
    ensures !StartsWith(request, PopRequest) && StartsWith(request, SizeRequest) ==> r.reply == Some(|q|) && r.store == q
    // anything else gets no reply at all
    ensures !StartsWith(request, PopRequest) && !StartsWith(request, SizeRequest) ==> r.reply == None && r.store == q
    // from a reachable store, a POP reply is a mark or -1
    ensures Stocked(q) && StartsWith(request, PopRequest) ==> r.reply.Some? && (IsMark(r.reply.value) || r.reply.value == -1)
    ensures Stocked(q) ==> Stocked(r.store)
  {
    if StartsWith(request, PopRequest) then
      if q != [] then Served(Some(q[0]), q[1..]) else Served(Some(-1), q)
    else if StartsWith(request, SizeRequest) then
      Served(Some(|q|), q)
    else
      Served(None, q)
  }

  /** Helper for `DrainInOrder`: the replies to `n` POP requests in a row. */
  function PopReplies(q: seq<int>, n: nat): (replies: seq<int>)
    ensures |replies| == n
    decreases n
  {
    if n == 0 then []
    else
      var s := Serve(q, PopRequest);
      [s.reply.value] + PopReplies(s.store, n - 1)
  }

  /** Popping the whole store hands the units out in the order they were stored (FIFO),
      and one more POP then finds it empty. */
  lemma {:induction false} DrainInOrder(q: seq<int>)
    ensures PopReplies(q, |q|) == q
    ensures PopReplies(q, |q| + 1) == q + [-1]
    decreases |q|
  {
    assert StartsWith(PopRequest, PopRequest);
    if q != [] {
      DrainInOrder(q[1..]);
    }
  }

  /** What goes over the socket for an integer reply. */
  function Encoded(reply: Option<int>): (bytes: Option<seq<char>>)
    ensures reply.Some? <==> bytes.Some?
    ensures reply.Some? ==> Atoi(bytes.value) == reply.value
  {
    match reply
    case None => None
    case Some(v) =>
      AtoiFormatInt(v);
      Some(FormatInt(v))
  }

  class Server {
    var store: seq<int>

    ghost predicate Valid()
      reads this
    {
      Stocked(store)
    }

    /** `main`'s initial fill, with `initial` standing for the ten random draws. */
    constructor (initial: seq<int>)
      requires |initial| == InitialFill && AllMarks(initial)
      ensures Valid() && store == initial
    {
      store := initial;
    }

    /** One round of `StorageThread`. */
    method Produce(mark: int)
      requires Valid() && IsMark(mark)
      modifies this
      ensures Valid()
      ensures store == Produced(old(store), mark)
    {
      if |store| < Capacity {
        store := store + [mark];
      }
    }

    /** One request read by `HandleClient`: the reply bytes written back, if any. */
    method HandleRequest(request: seq<char>) returns (reply: Option<seq<char>>)
      requires Valid()
      modifies this
      ensures Valid()
      ensures store == Serve(old(store), request).store
      ensures reply == Encoded(Serve(old(store), request).reply)
    {
      if StartsWith(request, PopRequest) {
        var fuel := -1;
        if store != [] {
          fuel := store[0];
          store := store[1..];
        }
        reply := Encoded(Some(fuel));
      } else if StartsWith(request, SizeRequest) {
        reply := Encoded(Some(|store|));
      } else {
        reply := None;
      }
    }
  }
}
