/**
 * The Redis sorted set that queues coupon requests by request time (redis.service.ts,
 * coupon.redis.repository.ts), and the order in which users leave it.
 */
module RequestQueue {

  /** A member with its score, the request time. */
  datatype Queued = Queued(userId: int, score: int)

  ghost predicate Sorted(queue: seq<Queued>) {
    forall i, j | 0 <= i < j < |queue| :: queue[i].score <= queue[j].score
  }

  ghost predicate Distinct(queue: seq<Queued>) {
    forall i, j | 0 <= i < j < |queue| :: queue[i].userId != queue[j].userId
  }

  function Members(queue: seq<Queued>): (users: seq<int>)
    ensures |users| == |queue|
    ensures forall i | 0 <= i < |queue| :: users[i] == queue[i].userId
  {
    if queue == [] then [] else [queue[0].userId] + Members(queue[1..])
  }

  /** ZADD: a member has one score, the latest; entries stay ordered by score. */
  function WithoutUser(queue: seq<Queued>, userId: int): seq<Queued> {
    if queue == [] then []
    else if queue[0].userId == userId then WithoutUser(queue[1..], userId)
    else [queue[0]] + WithoutUser(queue[1..], userId)
  }

  function Insert(queue: seq<Queued>, entry: Queued): seq<Queued> {
    if queue == [] || entry.score < queue[0].score then [entry] + queue
    else [queue[0]] + Insert(queue[1..], entry)
  }

  function Add(queue: seq<Queued>, entry: Queued): seq<Queued> {
    Insert(WithoutUser(queue, entry.userId), entry)
  }

  function Taken(queue: seq<Queued>, count: nat): nat {
    if count < |queue| then count else |queue|
  }

  /** ZPOPMIN as it comes over the wire: member, score, member, score, ... */
  function Reply(popped: seq<Queued>): (flat: seq<int>)
    ensures |flat| == 2 * |popped|
    ensures forall i | 0 <= i < |popped| :: flat[2 * i] == popped[i].userId && flat[2 * i + 1] == popped[i].score
  {
    if popped == [] then [] else [popped[0].userId, popped[0].score] + Reply(popped[1..])
  }

  lemma ConsKeeps(first: Queued, rest: seq<Queued>)
    requires Sorted(rest) && Distinct(rest)
    requires forall e | e in rest :: first.score <= e.score && first.userId != e.userId
    ensures Sorted([first] + rest) && Distinct([first] + rest)
  {
  }

  lemma {:induction false} WithoutMembers(queue: seq<Queued>, userId: int, e: Queued)
    ensures e in WithoutUser(queue, userId) <==> e in queue && e.userId != userId
  {
    if queue != [] {
      WithoutMembers(queue[1..], userId, e);
      assert e in queue <==> e == queue[0] || e in queue[1..];
    }
  }

  lemma {:induction false} WithoutKeeps(queue: seq<Queued>, userId: int)
    requires Sorted(queue) && Distinct(queue)
    ensures Sorted(WithoutUser(queue, userId)) && Distinct(WithoutUser(queue, userId))
  {
    if queue != [] {
      WithoutKeeps(queue[1..], userId);
      forall e | e in WithoutUser(queue[1..], userId)
        ensures queue[0].score <= e.score && queue[0].userId != e.userId
      {
        WithoutMembers(queue[1..], userId, e);
      }
      ConsKeeps(queue[0], WithoutUser(queue[1..], userId));
    }
  }

  lemma {:induction false} InsertMembers(queue: seq<Queued>, entry: Queued, e: Queued)
    ensures e in Insert(queue, entry) <==> e in queue || e == entry
  {
    if queue != [] && entry.score >= queue[0].score {
      InsertMembers(queue[1..], entry, e);
      assert e in queue <==> e == queue[0] || e in queue[1..];
    }
  }

  lemma {:induction false} InsertKeeps(queue: seq<Queued>, entry: Queued)
    requires Sorted(queue) && Distinct(queue)
    requires forall e | e in queue :: e.userId != entry.userId
    ensures Sorted(Insert(queue, entry)) && Distinct(Insert(queue, entry))
  {
    if queue == [] || entry.score < queue[0].score {
      ConsKeeps(entry, queue);
    } else {
      InsertKeeps(queue[1..], entry);
      forall e | e in Insert(queue[1..], entry)
        ensures queue[0].score <= e.score && queue[0].userId != e.userId
      {
        InsertMembers(queue[1..], entry, e);
      }
      ConsKeeps(queue[0], Insert(queue[1..], entry));
    }
  }

  /** A request puts its user where its time belongs and disturbs nobody else; asking again gives up the old place. */
  lemma AddKeeps(queue: seq<Queued>, entry: Queued)
    requires Sorted(queue) && Distinct(queue)
    ensures Sorted(Add(queue, entry)) && Distinct(Add(queue, entry))
    ensures forall e :: e in Add(queue, entry) <==> e == entry || (e in queue && e.userId != entry.userId)
  {
    forall e ensures e in Add(queue, entry) <==> e == entry || (e in queue && e.userId != entry.userId) {
      WithoutMembers(queue, entry.userId, e);
      InsertMembers(WithoutUser(queue, entry.userId), entry, e);
    }
    WithoutKeeps(queue, entry.userId);
    forall e | e in WithoutUser(queue, entry.userId) ensures e.userId != entry.userId {
      WithoutMembers(queue, entry.userId, e);
    }
    InsertKeeps(WithoutUser(queue, entry.userId), entry);
  }

  function QueueOf(zsets: map<int, seq<Queued>>, key: int): seq<Queued> {
    if key in zsets then zsets[key] else []
  }

  /** Every queue is sorted by score and has each member once. */
  ghost predicate AllSorted(zsets: map<int, seq<Queued>>) {
    forall key :: Sorted(QueueOf(zsets, key)) && Distinct(QueueOf(zsets, key))
  }

  lemma SetQueue(zsets: map<int, seq<Queued>>, key: int, queue: seq<Queued>)
    requires AllSorted(zsets) && Sorted(queue) && Distinct(queue)
    ensures AllSorted(zsets[key := queue])
  {
    var after := zsets[key := queue];
    forall k ensures Sorted(QueueOf(after, k)) && Distinct(QueueOf(after, k)) {
      if k != key { assert QueueOf(after, k) == QueueOf(zsets, k); }
    }
  }

  /** What popping leaves is as well ordered as before. */
  lemma PopKeepsSorted(zsets: map<int, seq<Queued>>, key: int, n: nat)
    requires AllSorted(zsets) && n <= |QueueOf(zsets, key)|
    ensures AllSorted(zsets[key := QueueOf(zsets, key)[n..]])
  {
    SplitSorted(QueueOf(zsets, key), n);
    SetQueue(zsets, key, QueueOf(zsets, key)[n..]);
  }

  class RedisService {
    /** The request queue of each FcfsCoupon id. */
    var zsets: map<int, seq<Queued>>

    constructor ()
      ensures zsets == map[]
    {
      zsets := map[];
    }

    /** The member has this score and no other, and nobody else's entry is disturbed. */
    method Zadd(key: int, score: int, member: int)
      requires AllSorted(zsets)
      modifies this
      ensures AllSorted(zsets)
      ensures forall e :: e in QueueOf(zsets, key)
                          <==> e == Queued(member, score) || (e in QueueOf(old(zsets), key) && e.userId != member)
      ensures forall other | other != key :: QueueOf(zsets, other) == QueueOf(old(zsets), other)
      ensures QueueOf(zsets, key) == Add(QueueOf(old(zsets), key), Queued(member, score))
    {
      AddKeeps(QueueOf(zsets, key), Queued(member, score));
      SetQueue(zsets, key, Add(QueueOf(zsets, key), Queued(member, score)));
      zsets := zsets[key := Add(QueueOf(zsets, key), Queued(member, score))];
    }

    /** Every other entry of the flat reply is a member. */
    static method ExtractMembers(result: seq<int>, ghost popped: seq<Queued>) returns (members: seq<int>)
      requires result == Reply(popped)
      ensures members == Members(popped)
    {
      members := [];
      var i := 0;
      while i < |result|
        invariant 0 <= i <= |result| && i % 2 == 0
        invariant |members| == i / 2 && forall j | 0 <= j < i / 2 :: members[j] == popped[j].userId
      {
        assert result[2 * (i / 2)] == popped[i / 2].userId;
        members := members + [result[i]];
        i := i + 2;
      }
    }

    /** Takes the lowest scores out of the set and answers with their members alone, in order. */
    method Zpopmin(key: int, count: nat) returns (members: seq<int>)
      modifies this
      ensures var queue := QueueOf(old(zsets), key);
              && members == Members(queue[..Taken(queue, count)])
              && zsets == old(zsets)[key := queue[Taken(queue, count)..]]
      ensures AllSorted(old(zsets)) ==> AllSorted(zsets)
    {
      var queue := QueueOf(zsets, key);
      var popped := queue[..Taken(queue, count)];
      if AllSorted(zsets) { PopKeepsSorted(zsets, key, Taken(queue, count)); }
      zsets := zsets[key := queue[Taken(queue, count)..]];
      members := ExtractMembers(Reply(popped), popped);
    }
  }

  // ---- First come, first served -------------------------------------------------------------------

  lemma JoinSorted(a: seq<Queued>, b: seq<Queued>)
    requires Sorted(a) && Sorted(b) && forall x, y | x in a && y in b :: x.score <= y.score
    ensures Sorted(a + b)
  {
    forall i, j | 0 <= i < j < |a + b| ensures (a + b)[i].score <= (a + b)[j].score {
      if i < |a| <= j {
        assert a[i] in a && b[j - |a|] in b;
      }
    }
  }

  /** Splitting a sorted queue: both halves are sorted, and the first is nowhere later than the second. */
  lemma SplitSorted(queue: seq<Queued>, n: nat)
    requires Sorted(queue) && Distinct(queue) && n <= |queue|
    ensures Sorted(queue[..n]) && Sorted(queue[n..]) && Distinct(queue[n..])
    ensures forall x, y | x in queue[..n] && y in queue[n..] :: x.score <= y.score
    ensures forall x, y | x in queue[..n] && y in queue[n..] :: x.userId != y.userId
    ensures forall e :: e in queue <==> e in queue[..n] || e in queue[n..]
  {
    assert queue == queue[..n] + queue[n..];
    forall x, y | x in queue[..n] && y in queue[n..] 
      ensures x.score <= y.score && x.userId != y.userId
    {
      var i :| 0 <= i < n && queue[..n][i] == x;
      var j :| 0 <= j < |queue[n..]| && queue[n..][j] == y;
      assert queue[i] == x && queue[n + j] == y;
    }
  }

  /**
   * Who waits and who has been taken, at time `now`: both in order of request time, nobody taken later than anybody
   * still waiting, and nobody's request in the future.
   */
  ghost predicate InLine(now: int, waiting: seq<Queued>, taken: seq<Queued>) {
    && Sorted(waiting) && Distinct(waiting) && Sorted(taken)
    && (forall e | e in waiting || e in taken :: e.score <= now)
    && (forall e, t | e in waiting && t in taken :: t.score <= e.score)
  }

  lemma BatchKeepsLine(now: int, waiting: seq<Queued>, taken: seq<Queued>, n: nat)
    requires InLine(now, waiting, taken) && n <= |waiting|
    ensures InLine(now, waiting[n..], taken + waiting[..n])
  {
    SplitSorted(waiting, n);
    JoinSorted(taken, waiting[..n]);
  }

  lemma RequestKeepsLine(now: int, waiting: seq<Queued>, taken: seq<Queued>, userId: int)
    requires InLine(now, waiting, taken)
    ensures InLine(now, Add(waiting, Queued(userId, now)), taken)
  {
    AddKeeps(waiting, Queued(userId, now));
  }

  class CouponRedisRepository {
    const redisService: RedisService

    constructor (redis: RedisService)
      ensures redisService == redis
    {
      redisService := redis;
    }

    /** Queues the user at the present time, behind everybody who has asked; asking again gives up the old place. */
    method AddToRequestQueue(couponId: int, userId: int, now: int, ghost taken: seq<Queued>)
      requires AllSorted(redisService.zsets) && InLine(now, QueueOf(redisService.zsets, couponId), taken)
      modifies redisService
      ensures AllSorted(redisService.zsets) && InLine(now, QueueOf(redisService.zsets, couponId), taken)
      ensures var before, after := QueueOf(old(redisService.zsets), couponId), QueueOf(redisService.zsets, couponId);
              && Queued(userId, now) in after
              && (forall e | e in after && e.userId != userId :: e in before && e.score <= now)
              && (forall e | e in before && e.userId != userId :: e in after)
    {
      RequestKeepsLine(now, QueueOf(redisService.zsets, couponId), taken, userId);
      redisService.Zadd(couponId, now, userId);
    }

    method GetRequestUsers(couponId: int, count: nat) returns (users: seq<int>)
      modifies redisService
      ensures var queue := QueueOf(old(redisService.zsets), couponId);
              && users == Members(queue[..Taken(queue, count)])
              && redisService.zsets == old(redisService.zsets)[couponId := queue[Taken(queue, count)..]]
      ensures AllSorted(old(redisService.zsets)) ==> AllSorted(redisService.zsets)
    {
      users := redisService.Zpopmin(couponId, count);
    }
  }
}
