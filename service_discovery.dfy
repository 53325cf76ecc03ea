/** Instance health tracking and selection (adrestia.ServiceManager): three
    expiring caches of instance addresses (blacklist, greylist, redlist) and a
    selection that scans the discovered instances in rotation order from a
    random start, skipping every instance on the blacklist or the redlist. */
module ServiceDiscovery {
  import opened JavaValues
  import opened Health

  const BlacklistCapacity := 60
  const GreylistCapacity := 50
  const RedlistCapacity := 40

  /** A discovered service instance, reduced to the string form of its URI. */
  datatype Instance = Instance(uri: string)

  /** Java's `String.trim()`, front half: drop leading characters up to ' '. */
  function TrimStart(s: string): string
    decreases |s|
  {
    if |s| > 0 && s[0] <= ' ' then TrimStart(s[1..]) else s
  }

  /** Java's `String.trim()`, back half: drop trailing characters up to ' '. */
  function TrimEnd(s: string): string
    decreases |s|
  {
    if |s| > 0 && s[|s| - 1] <= ' ' then TrimEnd(s[..|s| - 1]) else s
  }

  /** TrimStart removes a prefix made only of characters up to ' ', and what it
      keeps does not start with one. */
  lemma {:induction false} TrimStartDropsLeadingBlanks(s: string)
    ensures var r := TrimStart(s);
      |r| <= |s| && r == s[|s| - |r|..] &&
      (|r| > 0 ==> r[0] > ' ') &&
      forall k :: 0 <= k < |s| - |r| ==> s[k] <= ' '
    decreases |s|
  {
    if |s| > 0 && s[0] <= ' ' {
      TrimStartDropsLeadingBlanks(s[1..]);
    }
  }

  /** TrimEnd removes a suffix made only of characters up to ' ', and what it
      keeps does not end with one. */
  lemma {:induction false} TrimEndDropsTrailingBlanks(s: string)
    ensures var r := TrimEnd(s);
      |r| <= |s| && r == s[..|r|] &&
      (|r| > 0 ==> r[|r| - 1] > ' ') &&
      forall k :: |r| <= k < |s| ==> s[k] <= ' '
    decreases |s|
  {
    if |s| > 0 && s[|s| - 1] <= ' ' {
      TrimEndDropsTrailingBlanks(s[..|s| - 1]);
    }
  }

  /** The key under which an instance is tracked: its trimmed URI string. */
  function InstanceKey(instance: Instance): string
  {
    TrimEnd(TrimStart(instance.uri))
  }

  /** The configured lifetimes of the three caches. */
  datatype Durations = Durations(blacklist: int, greylist: int, redlist: int)

  /** The contents of the three caches at one moment. */
  datatype HealthLists = HealthLists(blacklist: Entries, greylist: Entries, redlist: Entries)

  /** An instance key that selection skips at `now`: live on the blacklist or
      on the redlist. */
  predicate Blocked(h: HealthLists, d: Durations, key: string, now: int)
  {
    IsLive(h.blacklist, key, now, d.blacklist) || IsLive(h.redlist, key, now, d.redlist)
  }

  /** The set of keys `Blocked` holds for; the ensures only ties the two
      together, and the selection lemmas below are stated over this set. */
  function BlockedKeys(h: HealthLists, d: Durations, now: int): (keys: set<string>)
    ensures forall k :: k in keys <==> Blocked(h, d, k, now)
  {
    (set k | k in h.blacklist && IsLive(h.blacklist, k, now, d.blacklist)) +
    (set k | k in h.redlist && IsLive(h.redlist, k, now, d.redlist))
  }

  /** What `reportFailure` does to the caches for `key` at `now`: a key live on
      the greylist is written to the blacklist; any other key is written to
      the greylist and the redlist. The caches not written keep their state. */
  ghost predicate FailureRecorded(d: Durations, h: HealthLists, h': HealthLists, key: string, now: int)
  {
    if IsLive(h.greylist, key, now, d.greylist) then
      PutOutcome(h.blacklist, h'.blacklist, key, now, d.blacklist, BlacklistCapacity) &&
      h'.greylist == h.greylist && h'.redlist == h.redlist
    else
      PutOutcome(h.greylist, h'.greylist, key, now, d.greylist, GreylistCapacity) &&
      PutOutcome(h.redlist, h'.redlist, key, now, d.redlist, RedlistCapacity) &&
      h'.blacklist == h.blacklist
  }

  /** Every cache within its maximum size. */
  predicate WithinCapacity(h: HealthLists)
  {
    |h.blacklist| <= BlacklistCapacity && |h.greylist| <= GreylistCapacity && |h.redlist| <= RedlistCapacity
  }

  /** Recording a failure never takes a cache past its maximum size. */
  lemma FailureKeepsCapacities(d: Durations, h: HealthLists, h': HealthLists, key: string, now: int)
    requires WithinCapacity(h) && FailureRecorded(d, h, h', key, now)
    ensures WithinCapacity(h')
  {
    if IsLive(h.greylist, key, now, d.greylist) {
      PutStaysWithinCapacity(h.blacklist, h'.blacklist, key, now, d.blacklist, BlacklistCapacity);
    } else {
      PutStaysWithinCapacity(h.greylist, h'.greylist, key, now, d.greylist, GreylistCapacity);
      PutStaysWithinCapacity(h.redlist, h'.redlist, key, now, d.redlist, RedlistCapacity);
    }
  }

  /** A failure of an instance not on the greylist does not blacklist it: it is
      skipped from then on exactly while its redlist entry lives, unless the
      blacklist already held it. */
  lemma IsolatedFailureBlocksUntilRedlistExpires(d: Durations, h: HealthLists, h': HealthLists,
                                                 key: string, now: int)
    requires FailureRecorded(d, h, h', key, now)
    requires !IsLive(h.greylist, key, now, d.greylist)
    ensures h'.blacklist == h.blacklist
    ensures forall t :: Blocked(h', d, key, t) <==> IsLive(h.blacklist, key, t, d.blacklist) || t - now < d.redlist
  {
    PutEffect(h.redlist, h'.redlist, key, now, d.redlist, RedlistCapacity);
  }

  /** Two strikes: after an isolated failure at `t1`, a second failure at `t2`
      while the greylist entry of the first is still live blacklists the key,
      which is then skipped until the blacklist duration has passed since
      `t2`. */
  lemma SecondFailureBlacklists(d: Durations, h0: HealthLists, h1: HealthLists, h2: HealthLists,
                                key: string, t1: int, t2: int)
    requires FailureRecorded(d, h0, h1, key, t1) && !IsLive(h0.greylist, key, t1, d.greylist)
    requires FailureRecorded(d, h1, h2, key, t2) && t2 - t1 < d.greylist
    ensures h2.greylist == h1.greylist && h2.redlist == h1.redlist
    ensures forall t :: IsLive(h2.blacklist, key, t, d.blacklist) <==> t - t2 < d.blacklist
    ensures forall t :: t - t2 < d.blacklist ==> Blocked(h2, d, key, t)
  {
    PutEffect(h0.greylist, h1.greylist, key, t1, d.greylist, GreylistCapacity);
    assert IsLive(h1.greylist, key, t2, d.greylist);
    PutEffect(h1.blacklist, h2.blacklist, key, t2, d.blacklist, BlacklistCapacity);
  }

  /** The index the scan reads at step `i`: `i + start`, wrapped once. */
  function Rotated(n: nat, start: nat, i: nat): (j: nat)
    requires start < n && i < n
    ensures j < n
  {
    if i + start >= n then i + start - n else i + start
  }

  /** The step at which the scan reads index `j`. */
  function StepOf(n: nat, start: nat, j: nat): (i: nat)
    requires start < n && j < n
    ensures i < n
  {
    if j >= start then j - start else j + n - start
  }

  /** The scan reads every index of the list exactly once: distinct steps read
      distinct indices, and index `j` is read at step `StepOf(n, start, j)`. */
  lemma RotationVisitsEveryIndexOnce(n: nat, start: nat)
    requires start < n
    ensures forall i1, i2 :: 0 <= i1 < n && 0 <= i2 < n && Rotated(n, start, i1) == Rotated(n, start, i2) ==> i1 == i2
    ensures forall j :: 0 <= j < n ==> Rotated(n, start, StepOf(n, start, j)) == j
  {
  }

  /** The position of the first element of `s` whose key is not blocked, or
      `|s|` when every key is blocked. */
  function FirstUnblockedIndex(s: seq<Instance>, blocked: set<string>): (i: nat)
    ensures i <= |s|
    ensures forall j :: 0 <= j < i ==> InstanceKey(s[j]) in blocked
    ensures i < |s| ==> InstanceKey(s[i]) !in blocked
  {
    if |s| == 0 then 0
    else if InstanceKey(s[0]) !in blocked then 0
    else 1 + FirstUnblockedIndex(s[1..], blocked)
  }

  /** The first element of `s` whose key is not blocked, if any. */
  function FirstUnblocked(s: seq<Instance>, blocked: set<string>): Option<Instance>
  {
    var i := FirstUnblockedIndex(s, blocked);
    if i < |s| then Some(s[i]) else None
  }

  /** The scan from step `i` on: candidates are read at the rotated indices. */
  function ScanFrom(instances: seq<Instance>, start: nat, blocked: set<string>, i: nat): Option<Instance>
    requires start < |instances|
    decreases |instances| - i
  {
    if i >= |instances| then None
    else
      var candidate := instances[Rotated(|instances|, start, i)];
      if InstanceKey(candidate) in blocked then ScanFrom(instances, start, blocked, i + 1)
      else Some(candidate)
  }

  /** The instance `findService` picks from a discovered list. */
  function Select(instances: seq<Instance>, start: nat, blocked: set<string>): Option<Instance>
    requires |instances| == 0 || start < |instances|
  {
    if |instances| == 0 then None else ScanFrom(instances, start, blocked, 0)
  }

  /** The list rotated to begin at `start`. */
  function Rotation(instances: seq<Instance>, start: nat): (s: seq<Instance>)
    requires start < |instances|
    ensures |s| == |instances|
    ensures forall i :: 0 <= i < |s| ==> s[i] == instances[Rotated(|instances|, start, i)]
  {
    instances[start..] + instances[..start]
  }

  lemma {:induction false} ScanFromIsFirstUnblocked(instances: seq<Instance>, start: nat, blocked: set<string>, i: nat)
    requires start < |instances| && i <= |instances|
    ensures ScanFrom(instances, start, blocked, i) == FirstUnblocked(Rotation(instances, start)[i..], blocked)
    decreases |instances| - i
  {
    var rest := Rotation(instances, start)[i..];
    if i < |instances| {
      assert rest[0] == instances[Rotated(|instances|, start, i)];
      assert rest[1..] == Rotation(instances, start)[i + 1..];
      ScanFromIsFirstUnblocked(instances, start, blocked, i + 1);
    }
  }

  /** Selection returns the first unblocked instance of the list rotated to
      begin at the random start, and nothing when the list is empty. */
  lemma SelectIsFirstUnblockedInRotation(instances: seq<Instance>, start: nat, blocked: set<string>)
    requires start < |instances|
    ensures Select(instances, start, blocked) == FirstUnblocked(Rotation(instances, start), blocked)
  {
    ScanFromIsFirstUnblocked(instances, start, blocked, 0);
    assert Rotation(instances, start)[0..] == Rotation(instances, start);
  }

  /** Selection never returns a blocked instance, and returns none only when
      every discovered instance is blocked (in particular when there are
      none). */
  lemma SelectSkipsExactlyBlocked(instances: seq<Instance>, start: nat, blocked: set<string>)
    requires |instances| == 0 || start < |instances|
    ensures Select(instances, start, blocked).Some? ==>
      Select(instances, start, blocked).value in instances &&
      InstanceKey(Select(instances, start, blocked).value) !in blocked
    ensures Select(instances, start, blocked).None? <==>
      forall c :: c in instances ==> InstanceKey(c) in blocked
  {
    if |instances| > 0 {
      SelectIsFirstUnblockedInRotation(instances, start, blocked);
      var s := Rotation(instances, start);
      RotationVisitsEveryIndexOnce(|instances|, start);
      forall c | c in instances
        ensures c in s
      {
        var j :| 0 <= j < |instances| && instances[j] == c;
        var i := StepOf(|instances|, start, j);
        assert s[i] == c;
      }
    }
  }

  /** The discovery call's outcome turned into `findService`'s: an exception
      passes through, a null list gives null, a list gives the selection. */
  predicate StartFits(discovered: Outcome<Option<seq<Instance>>>, start: nat)
  {
    discovered.Returned? && discovered.value.Some? && |discovered.value.value| > 0 ==>
      start < |discovered.value.value|
  }

  function Found(discovered: Outcome<Option<seq<Instance>>>, start: nat, blocked: set<string>): Outcome<Option<Instance>>
    requires StartFits(discovered, start)
  {
    match discovered
    case Threw => Threw
    case Returned(None) => Returned(None)
    case Returned(Some(instances)) => Returned(Select(instances, start, blocked))
  }

  /** The selection and failure-tracking component. Discovery is a function
      from a service name to the outcome of asking Consul for its instances;
      the random start index and the current time are arguments. */
  class ServiceManager {
    const durations: Durations
    var blacklist: ExpiringCache?
    var greylist: ExpiringCache?
    var redlist: ExpiringCache?

    predicate Initialized()
      reads this
    {
      blacklist != null && greylist != null && redlist != null
    }

    /** The caches are created together (all null before), are three distinct
        objects, and carry the configured durations and the fixed sizes. */
    ghost predicate Valid()
      reads this, blacklist, greylist, redlist
    {
      durations.blacklist >= 0 && durations.greylist >= 0 && durations.redlist >= 0 &&
      (redlist == null ==> blacklist == null && greylist == null) &&
      (redlist != null ==>
        Initialized() &&
        blacklist != greylist && blacklist != redlist && greylist != redlist &&
        blacklist.Valid() && greylist.Valid() && redlist.Valid() &&
        blacklist.duration == durations.blacklist && blacklist.capacity == BlacklistCapacity &&
        greylist.duration == durations.greylist && greylist.capacity == GreylistCapacity &&
        redlist.duration == durations.redlist && redlist.capacity == RedlistCapacity)
    }

    function Lists(): HealthLists
      reads this, blacklist, greylist, redlist
      requires Initialized()
    {
      HealthLists(blacklist.entries, greylist.entries, redlist.entries)
    }

    /** The caches are not created until the first lookup. */
    constructor (blacklistDuration: int, greylistDuration: int, redlistDuration: int)
      requires blacklistDuration >= 0 && greylistDuration >= 0 && redlistDuration >= 0
      ensures Valid() && !Initialized()
      ensures durations == Durations(blacklistDuration, greylistDuration, redlistDuration)
    {
      durations := Durations(blacklistDuration, greylistDuration, redlistDuration);
      blacklist, greylist, redlist := null, null, null;
    }

    /** `initializeCaches`: three fresh, empty caches. */
    method InitializeCaches()
      requires Valid()
      modifies this
      ensures Valid() && Initialized()
      ensures fresh(blacklist) && fresh(greylist) && fresh(redlist)
      ensures Lists() == HealthLists(map[], map[], map[])
    {
      blacklist := new ExpiringCache(durations.blacklist, BlacklistCapacity);
      greylist := new ExpiringCache(durations.greylist, GreylistCapacity);
      redlist := new ExpiringCache(durations.redlist, RedlistCapacity);
    }

    /** The rotation scan of `findService` over a discovered list: the first
        instance in rotation order from `start` that is on neither the
        blacklist nor the redlist at `now`. */
    method ScanInstances(instances: seq<Instance>, start: nat, now: int) returns (r: Option<Instance>)
      requires Valid() && Initialized()
      requires |instances| == 0 || start < |instances|
      ensures r == Select(instances, start, BlockedKeys(Lists(), durations, now))
    {
      ghost var blocked := BlockedKeys(Lists(), durations, now);
      var n := |instances|;
      r := None;
      var i := 0;
      while i < n
        invariant 0 <= i <= n
        invariant r == None
        invariant n > 0 ==> ScanFrom(instances, start, blocked, i) == Select(instances, start, blocked)
      {
        var currentIndex := i + start;
        if currentIndex >= n {
          currentIndex := currentIndex - n;
        }
        assert currentIndex == Rotated(n, start, i);
        r := Some(instances[currentIndex]);
        var key := InstanceKey(instances[currentIndex]);
        assert (blacklist.Contains(key, now) || redlist.Contains(key, now)) <==> key in blocked;
        if blacklist.Contains(key, now) || redlist.Contains(key, now) {
          r := None;
        } else {
          return;
        }
        i := i + 1;
      }
    }

    /** `findService`: create the caches on first use, ask discovery for the
        named service, and select from the list it returns. */
    method FindService(serviceName: string, discover: string -> Outcome<Option<seq<Instance>>>,
                       start: nat, now: int) returns (r: Outcome<Option<Instance>>)
      requires Valid()
      requires StartFits(discover(serviceName), start)
      modifies this
      ensures Valid() && Initialized()
      ensures old(Initialized()) ==>
        blacklist == old(blacklist) && greylist == old(greylist) && redlist == old(redlist) &&
        Lists() == old(Lists())
      ensures !old(Initialized()) ==>
        fresh(blacklist) && fresh(greylist) && fresh(redlist) && Lists() == HealthLists(map[], map[], map[])
      ensures r == Found(discover(serviceName), start, BlockedKeys(Lists(), durations, now))
    {
      if redlist == null {
        InitializeCaches();
      }
      var discovered := discover(serviceName);
      match discovered
      case Threw =>
        r := Threw;
      case Returned(None) =>
        r := Returned(None);
      case Returned(Some(instances)) =>
        var selected := ScanInstances(instances, start, now);
        r := Returned(selected);
    }

    /** `reportFailure`: escalate the instance's key. A null instance fails
        inside the guarded block, so the call changes nothing. Before the
        caches exist the size logging after that block raises a null
        dereference, and again nothing changes. */
    method ReportFailure(instance: Option<Instance>, now: int) returns (raised: bool)
      requires Valid()
      modifies blacklist, greylist, redlist
      ensures Valid()
      ensures raised <==> !Initialized()
      ensures Initialized() && instance.None? ==> Lists() == old(Lists())
      ensures Initialized() && instance.Some? ==>
        (old(Initialized()) && FailureRecorded(durations, old(Lists()), Lists(), InstanceKey(instance.value), now))
    {
      if !Initialized() {
        raised := true;
        return;
      }
      raised := false;
      if instance.None? {
        return;
      }
      var key := InstanceKey(instance.value);
      if greylist.Contains(key, now) {
        blacklist.Put(key, now);
      } else {
        greylist.Put(key, now);
        redlist.Put(key, now);
      }
    }

    /** `findClyman`: an exception during the lookup yields null. */
    method FindClyman(discover: string -> Outcome<Option<seq<Instance>>>, start: nat, now: int)
      returns (r: Option<Instance>)
      requires Valid()
      requires StartFits(discover("Clyman"), start)
      modifies this
      ensures Valid() && Initialized()
      ensures old(Initialized()) ==>
        blacklist == old(blacklist) && greylist == old(greylist) && redlist == old(redlist) &&
        Lists() == old(Lists())
      ensures !old(Initialized()) ==>
        fresh(blacklist) && fresh(greylist) && fresh(redlist) && Lists() == HealthLists(map[], map[], map[])
      ensures var found := Found(discover("Clyman"), start, BlockedKeys(Lists(), durations, now));
        r == if found.Threw? then None else found.value
    {
      var found := FindService("Clyman", discover, start, now);
      r := if found.Threw? then None else found.value;
    }

    /** `findCrazyIvan`: the same lookup for the "Ivan" service. */
    method FindCrazyIvan(discover: string -> Outcome<Option<seq<Instance>>>, start: nat, now: int)
      returns (r: Option<Instance>)
      requires Valid()
      requires StartFits(discover("Ivan"), start)
      modifies this
      ensures Valid() && Initialized()
      ensures old(Initialized()) ==>
        blacklist == old(blacklist) && greylist == old(greylist) && redlist == old(redlist) &&
        Lists() == old(Lists())
      ensures !old(Initialized()) ==>
        fresh(blacklist) && fresh(greylist) && fresh(redlist) && Lists() == HealthLists(map[], map[], map[])
      ensures var found := Found(discover("Ivan"), start, BlockedKeys(Lists(), durations, now));
        r == if found.Threw? then None else found.value
    {
      var found := FindService("Ivan", discover, start, now);
      r := if found.Threw? then None else found.value;
    }
  }
}
