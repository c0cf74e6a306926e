/** The benchmark's bounded cleanup of paid machines (cloud_offload/benchmark.py,
    `_cleanup_resources`): every candidate is asked to stop at least once, and a machine is
    reported absent only on the word of a final inventory. */
module ResourceCleanup {
  import opened Prelude

  /** A machine: its provider and its identifier there. */
  type Machine = (string, string)

  /** The machines of each provider; the flag says whether the machine is managed. */
  type Inventory = map<string, map<string, bool>>

  datatype Receipt = Receipt(attempts: nat, requested: bool, absent: bool, inventoryFailed: bool, interrupted: bool)

  function ManagedIds(inventory: Inventory): set<Machine> {
    set p, i | p in inventory && i in inventory[p] && inventory[p][i] :: (p, i)
  }

  predicate IsListed(m: Machine, inventory: Inventory) {
    m.0 in inventory && m.1 in inventory[m.0]
  }

  /** The inventory was read and does not list the machine. */
  predicate IsGone(m: Machine, inventory: Option<Inventory>) {
    inventory.Some? && !IsListed(m, inventory.value)
  }

  function Ceil(x: real): int {
    -((-x).Floor)
  }

  function MaxRounds(timeout: real): nat {
    if Ceil(timeout) + 2 > 2 then Ceil(timeout) + 2 else 2
  }

  function Requests(log: seq<Machine>, m: Machine): nat {
    multiset(log)[m]
  }

  /** What an inventory request comes to. */
  datatype Reading = Read(inventory: Inventory) | Failed | Interrupted

  /** What a termination request comes to. */
  datatype Stop = Granted | Refused | StopInterrupted

  /** What becomes of the nth look at the clock (nothing, if it is interrupted), the nth inventory,
      the nth termination and the nth sleep (whether it is interrupted). */
  datatype Driver = Driver(times: nat -> Option<real>, inventories: nat -> Reading, stops: nat -> Stop, naps: nat -> bool)

  /** The latest time of the first `n` looks at the clock. */
  function Latest(d: Driver, n: nat): real {
    if n == 0 then 0.0
    else
      var before, now := Latest(d, n - 1), d.times(n - 1);
      if now.Some? && now.value > before then now.value else before
  }

  /** Some call so far was interrupted. */
  ghost predicate WasInterrupted(d: Driver, ticks: nat, looks: nat, asks: nat, naps: nat) {
    || (exists n: nat :: n < ticks && d.times(n).None?)
    || (exists n: nat :: n < looks && d.inventories(n).Interrupted?)
    || (exists n: nat :: n < asks && d.stops(n).StopInterrupted?)
    || (exists n: nat :: n < naps && d.naps(n))
  }

  /** The inventory that a reading amounts to. */
  function Word(reading: Reading): Option<Inventory> {
    if reading.Read? then Some(reading.inventory) else None
  }

  /** The readings from `from` to `to` that do not show the machine gone. */
  ghost function RoundsListing(readings: seq<Reading>, from: nat, to: nat, m: Machine): nat
    requires from <= to <= |readings|
  {
    if from == to then 0
    else RoundsListing(readings, from, to - 1, m) + if IsGone(m, Word(readings[to - 1])) then 0 else 1
  }

  /** Each machine was asked once more in each of some rounds that did not show it gone. */
  ghost predicate IsAskedInEach(asked: map<Machine, Receipt>, receipts: map<Machine, Receipt>, readings: seq<Reading>,
                                from: nat, to: nat)
    requires from <= to <= |readings|
  {
    && asked.Keys == receipts.Keys
    && forall m <- asked :: asked[m].attempts == receipts[m].attempts + RoundsListing(readings, from, to, m)
  }

  lemma NoRounds(receipts: map<Machine, Receipt>, readings: seq<Reading>)
    ensures IsAskedInEach(receipts, receipts, readings, |readings|, |readings|)
  {
  }

  lemma RoundsAreBounded(asked: map<Machine, Receipt>, receipts: map<Machine, Receipt>, readings: seq<Reading>,
                         from: nat, to: nat)
    requires from <= to <= |readings| && IsAskedInEach(asked, receipts, readings, from, to)
    ensures asked.Keys == receipts.Keys
    ensures forall m <- asked :: receipts[m].attempts <= asked[m].attempts <= receipts[m].attempts + to - from
  {
    hide RoundsListing;
    forall m | m in asked {
      SameRounds(readings, readings, from, to, m);
    }
  }

  lemma OneMoreReading(asked: map<Machine, Receipt>, receipts: map<Machine, Receipt>, readings: seq<Reading>,
                       reading: Reading, from: nat)
    requires from <= |readings| && IsAskedInEach(asked, receipts, readings, from, |readings|)
    ensures IsAskedInEach(asked, receipts, readings + [reading], from, |readings|)
  {
    hide RoundsListing;
    forall m | m in asked {
      SameRounds(readings, readings + [reading], from, |readings|, m);
    }
  }

  lemma OneMoreRound(before: map<Machine, Receipt>, asked: map<Machine, Receipt>, receipts: map<Machine, Receipt>,
                     readings: seq<Reading>, reading: Reading, from: nat)
    requires from <= |readings| && IsAskedInEach(before, receipts, readings, from, |readings|)
    requires asked.Keys == before.Keys
    requires forall m <- asked :: asked[m].attempts == before[m].attempts + if IsGone(m, Word(reading)) then 0 else 1
    ensures IsAskedInEach(asked, receipts, readings + [reading], from, |readings| + 1)
  {
    hide IsGone, Word;
    forall m | m in asked {
      SameRounds(readings, readings + [reading], from, |readings|, m);
    }
  }

  lemma {:induction false} SameRounds(readings: seq<Reading>, readings': seq<Reading>, from: nat, to: nat, m: Machine)
    requires from <= to <= |readings| && readings <= readings'
    ensures RoundsListing(readings', from, to, m) == RoundsListing(readings, from, to, m) <= to - from
  {
    if from < to {
      SameRounds(readings, readings', from, to - 1, m);
    }
  }

  lemma OneMoreRequest(log: seq<Machine>, m: Machine)
    ensures Requests(log + [m], m) == Requests(log, m) + 1
    ensures forall k | k != m :: Requests(log + [m], k) == Requests(log, k)
  {
  }

  class CleanupRunner {
    const driver: Driver
    /** The latest time that was read; it never runs back, but may stand still. */
    var clock: real
    var interrupted: bool
    /** How many calls of each kind were made. */
    var ticks: nat
    var naps: nat
    /** The terminations that were asked for, in order. */
    ghost var log: seq<Machine>
    /** The inventories that were asked for, in order. */
    ghost var readings: seq<Reading>
    var looks: nat
    var asks: nat

    ghost predicate Valid()
      reads this
    {
      && clock == Latest(driver, ticks) && looks == |readings| && asks == |log|
      && (forall n: nat | n < |readings| :: readings[n] == driver.inventories(n))
      && (interrupted <==> WasInterrupted(driver, ticks, looks, asks, naps))
    }

    constructor (driver: Driver)
      ensures Valid() && log == [] && readings == [] && ticks == 0 && this.driver == driver
    {
      this.driver := driver;
      clock, interrupted, ticks, naps, looks, asks, log, readings := 0.0, false, 0, 0, 0, 0, [], [];
    }

    method CleanupNow() returns (now: real)
      requires Valid()
      modifies this`clock, this`interrupted, this`ticks
      ensures Valid() && now == clock && ticks == old(ticks) + 1
    {
      var read := driver.times(ticks);
      if read.None? {
        interrupted := true;
      } else if read.value > clock {
        clock := read.value;
      }
      ticks := ticks + 1;
      now := clock;
    }

    method ReadInventory() returns (r: Reading)
      requires Valid()
      modifies this`interrupted, this`readings, this`looks
      ensures Valid() && readings == old(readings) + [r] && r == driver.inventories(old(looks))
    {
      r := driver.inventories(looks);
      if r.Interrupted? {
        interrupted := true;
      }
      readings, looks := readings + [r], looks + 1;
    }

    /** Asks for one termination; the request may raise. */
    method Terminate(m: Machine) returns (requested: bool)
      requires Valid()
      modifies this`interrupted, this`log, this`asks
      ensures Valid() && log == old(log) + [m] && requested == driver.stops(|old(log)|).Granted?
    {
      var stop := driver.stops(asks);
      if stop.StopInterrupted? {
        interrupted := true;
      }
      requested := stop.Granted?;
      log, asks := log + [m], asks + 1;
    }

    method Sleep()
      requires Valid()
      modifies this`interrupted, this`naps
      ensures Valid()
    {
      if driver.naps(naps) {
        interrupted := true;
      }
      naps := naps + 1;
    }

    /** Every request is on record with what became of the last one, and only candidates were
        asked to stop. */
    ghost predicate Accounted(receipts: map<Machine, Receipt>)
      reads this`log
    {
      && (forall m <- receipts :: receipts[m].attempts == Requests(log, m))
      && (forall m <- log :: m in receipts)
      && (forall m <- receipts | receipts[m].attempts > 0 :: WasLast(m, receipts[m].requested))
    }

    /** The last request to the machine was granted, or was not. */
    ghost predicate WasLast(m: Machine, requested: bool)
      reads this`log
    {
      exists n: nat :: n < |log| && log[n] == m && (forall k | n < k < |log| :: log[k] != m)
                       && requested == driver.stops(n).Granted?
    }

    /** Ends after at most `MaxRounds` rounds even if the clock stands still.  Machines that
        were managed before are never asked to stop; every other candidate is, unless the
        first inventory showed it absent; and a machine is reported absent only if the last
        inventory was read and does not list it. */
    method CleanupResources(baseline: Inventory, resources: set<Machine>, timeout: real, includeUntracked: bool)
      returns (receipts: map<Machine, Receipt>, first: Option<Inventory>)
      requires Valid() && log == [] && readings == [] && ticks == 0
      modifies this
      ensures Valid() && |readings| > 0
      ensures first == if Latest(driver, 2) < Latest(driver, 1) + timeout then Word(readings[0]) else None
      ensures receipts.Keys ==
              resources + (if includeUntracked && first.Some? then ManagedIds(first.value) else {}) - ManagedIds(baseline)
      ensures forall m <- log :: m in receipts && m !in ManagedIds(baseline)
      ensures forall m <- receipts :: receipts[m].attempts == Requests(log, m) <= 1 + MaxRounds(timeout)
      ensures forall m <- receipts :: receipts[m].attempts == 0 ==> first.Some? && !IsListed(m, first.value)
      ensures forall m <- receipts :: receipts[m].attempts > 0 ==> WasLast(m, receipts[m].requested)
      ensures forall m <- receipts :: receipts[m].absent ==>
                                        readings[|readings| - 1].Read? && !IsListed(m, readings[|readings| - 1].inventory)
      ensures forall m <- receipts | !receipts[m].inventoryFailed ::
                readings[|readings| - 1].Read? && (receipts[m].absent <==> !IsListed(m, readings[|readings| - 1].inventory))
      ensures forall m <- receipts | receipts[m].inventoryFailed ::
                clock >= Latest(driver, 1) + timeout || !readings[|readings| - 1].Read?
      ensures forall m <- receipts :: receipts[m].interrupted == interrupted
    {
      hide ManagedIds, IsListed, Requests, MaxRounds, WasInterrupted, Word, WasLast;
      assert Latest(driver, 1) == Latest(driver, ticks + 1);
      var started := CleanupNow();
      var deadline := started + timeout;
      var current := ReadInTime(deadline);
      first := current;
      var candidates := resources;
      if includeUntracked && current.Some? {
        candidates := candidates + (ManagedIds(current.value) - ManagedIds(baseline));
      }
      candidates := candidates - ManagedIds(baseline);
      receipts := map m | m in candidates ::
        Receipt(0, false, current.Some? && !IsListed(m, current.value), false, false);
      hide Latest;
      receipts := StopAll(receipts, deadline, timeout);
    }

    lemma AccountedFor(receipts: map<Machine, Receipt>)
      requires Accounted(receipts)
      ensures forall m <- log :: m in receipts
      ensures forall m <- receipts :: receipts[m].attempts == Requests(log, m)
      ensures forall m <- receipts | receipts[m].attempts > 0 :: WasLast(m, receipts[m].requested)
    {
    }

    /** Asks every candidate that was not seen absent to stop, retries, and takes the final
        inventory. */
    method StopAll(candidates: map<Machine, Receipt>, deadline: real, timeout: real)
      returns (receipts: map<Machine, Receipt>)
      requires Valid() && log == [] && |readings| > 0 && forall m <- candidates :: candidates[m].attempts == 0
      modifies this
      ensures Valid() && old(readings) <= readings && receipts.Keys == candidates.Keys
      ensures forall m <- log :: m in receipts
      ensures forall m <- receipts :: receipts[m].attempts == Requests(log, m) <= 1 + MaxRounds(timeout)
      ensures forall m <- receipts :: receipts[m].attempts == 0 ==> candidates[m].absent
      ensures forall m <- receipts :: receipts[m].attempts > 0 ==> WasLast(m, receipts[m].requested)
      ensures forall m <- receipts :: IsConcluded(m, receipts[m], deadline)
    {
      hide IsListed, Requests, MaxRounds, Latest, WasInterrupted, WasLast, RoundsListing, IsAskedInEach, Accounted, Valid, IsConcluded;
      var first := RequestFirst(candidates);
      var asked := RetryUntilGone(first, deadline, timeout);
      if IsAskedInEach(asked, first, readings, |old(readings)|, |readings|) {
        RoundsAreBounded(asked, first, readings, |old(readings)|, |readings|);
      } else {
        RoundsAreBounded(asked, first, readings, |old(readings)|, |readings| - 1);
      }
      AccountedFor(asked);
      receipts := Conclude(asked, deadline);
    }

    /** What the final inventory says of each machine. */
    method Conclude(asked: map<Machine, Receipt>, deadline: real) returns (receipts: map<Machine, Receipt>)
      requires Valid() && |readings| > 0
      modifies this`clock, this`interrupted, this`readings, this`looks, this`ticks
      ensures Valid() && old(readings) <= readings && receipts.Keys == asked.Keys
      ensures forall m <- receipts :: receipts[m].attempts == asked[m].attempts && receipts[m].requested == asked[m].requested
      ensures forall m <- receipts :: IsConcluded(m, receipts[m], deadline)
    {
      hide IsListed, Latest, WasInterrupted, Valid;
      var last := FinalInventory(deadline);
      receipts := map m | m in asked ::
        asked[m].(absent := last.Some? && !IsListed(m, last.value), inventoryFailed := last.None?, interrupted := interrupted);
    }

    /** A machine is absent when the last inventory was read and does not list it; without a
        last inventory the deadline has passed or the reading failed. */
    ghost predicate IsConcluded(m: Machine, receipt: Receipt, deadline: real)
      reads this
      requires |readings| > 0
    {
      var last := readings[|readings| - 1];
      && (if receipt.inventoryFailed then !receipt.absent && (clock >= deadline || !last.Read?)
          else last.Read? && (receipt.absent <==> !IsListed(m, last.inventory)))
      && receipt.interrupted == interrupted
    }

    /** A reading that ends after the deadline does not count. */
    method ReadInTime(deadline: real) returns (inventory: Option<Inventory>)
      requires Valid() && readings == [] && ticks == 1
      modifies this`clock, this`interrupted, this`readings, this`looks, this`ticks
      ensures Valid() && |readings| == 1
      ensures inventory == if Latest(driver, 2) < deadline then Word(readings[0]) else None
    {
      var reading := ReadInventory();
      inventory := Word(reading);
      if reading.Read? {
        var now := CleanupNow();
        if now >= deadline {
          inventory := None;
        }
      }
    }

    /** The first request, to every machine that was not seen absent. */
    method RequestFirst(receipts: map<Machine, Receipt>) returns (asked: map<Machine, Receipt>)
      requires Valid() && log == [] && forall m <- receipts :: receipts[m].attempts == 0
      modifies this`interrupted, this`log, this`asks
      ensures Valid() && asked.Keys == receipts.Keys && Accounted(asked)
      ensures forall m <- asked :: asked[m].attempts == (if receipts[m].absent then 0 else 1)
    {
      asked := receipts;
      var todo := receipts.Keys;
      while todo != {}
        invariant Valid() && todo <= receipts.Keys && asked.Keys == receipts.Keys && Accounted(asked)
        invariant forall m <- todo :: asked[m] == receipts[m]
        invariant forall m <- asked | m !in todo :: asked[m].attempts == (if receipts[m].absent then 0 else 1)
        decreases todo
      {
        var m :| m in todo;
        if !asked[m].absent {
          asked := AskOne(asked, m);
        }
        todo := todo - {m};
      }
    }

    /** One request, entered on the receipt. */
    method AskOne(receipts: map<Machine, Receipt>, m: Machine) returns (asked: map<Machine, Receipt>)
      requires Valid() && m in receipts && Accounted(receipts)
      modifies this`interrupted, this`log, this`asks
      ensures Valid() && Accounted(asked) && asked.Keys == receipts.Keys
      ensures asked[m].attempts == receipts[m].attempts + 1 && asked[m].absent == receipts[m].absent
      ensures forall k <- receipts | k != m :: asked[k] == receipts[k]
    {
      hide Valid, Requests;
      OneMoreRequest(log, m);
      var requested := Terminate(m);
      asked := receipts[m := receipts[m].(attempts := receipts[m].attempts + 1, requested := requested)];
      forall k <- asked | asked[k].attempts > 0 ensures WasLast(k, asked[k].requested) {
        if k == m {
          assert log[|log| - 1] == m;
        } else {
          var n: nat :| n < |old(log)| && old(log)[n] == k && (forall j | n < j < |old(log)| :: old(log)[j] != k)
                        && receipts[k].requested == driver.stops(n).Granted?;
          assert log[n] == k;
        }
      }
    }

    lemma AbsenceIsNoRequest(receipts: map<Machine, Receipt>, m: Machine)
      requires Accounted(receipts) && m in receipts
      ensures Accounted(receipts[m := receipts[m].(absent := true)])
    {
      hide WasLast, Requests;
    }

    /** One round: machines seen absent are noted, all others are asked again. */
    method AskAgain(receipts: map<Machine, Receipt>, inventory: Option<Inventory>)
      returns (asked: map<Machine, Receipt>, pending: bool)
      requires Valid() && Accounted(receipts)
      modifies this`interrupted, this`log, this`asks
      ensures Valid() && asked.Keys == receipts.Keys && Accounted(asked)
      ensures forall m <- asked :: asked[m].attempts == receipts[m].attempts + if IsGone(m, inventory) then 0 else 1
      ensures !pending <==> forall m <- receipts :: IsGone(m, inventory)
    {
      hide IsGone, Valid, Accounted;
      asked, pending := receipts, false;
      var todo := receipts.Keys;
      while todo != {}
        invariant Valid() && todo <= receipts.Keys && asked.Keys == receipts.Keys && Accounted(asked)
        invariant forall m <- todo :: asked[m] == receipts[m]
        invariant forall m <- asked | m !in todo ::
                    asked[m].attempts == receipts[m].attempts + if IsGone(m, inventory) then 0 else 1
        invariant !pending <==> forall m <- receipts | m !in todo :: IsGone(m, inventory)
        decreases todo
      {
        var m :| m in todo;
        if IsGone(m, inventory) {
          AbsenceIsNoRequest(asked, m);
          asked := asked[m := asked[m].(absent := true)];
        } else {
          pending := true;
          asked := AskOne(asked, m);
        }
        todo := todo - {m};
      }
    }

    /** Asks again, round by round, until all machines are seen absent, the rounds are used up or
        the deadline has passed.  In every round each machine that its inventory does not show
        gone is asked, except in a last one that ends after the deadline. */
    method RetryUntilGone(receipts: map<Machine, Receipt>, deadline: real, timeout: real)
      returns (asked: map<Machine, Receipt>)
      requires Valid() && Accounted(receipts)
      modifies this
      ensures Valid() && asked.Keys == receipts.Keys && Accounted(asked) && old(readings) <= readings
      ensures |readings| <= |old(readings)| + MaxRounds(timeout)
      ensures || asked == map[] || |readings| == |old(readings)| + MaxRounds(timeout) || clock >= deadline
              || (|readings| > |old(readings)| && forall m <- asked :: IsGone(m, Word(readings[|readings| - 1])))
      ensures || IsAskedInEach(asked, receipts, readings, |old(readings)|, |readings|)
              || (clock >= deadline && |readings| > |old(readings)|
                  && IsAskedInEach(asked, receipts, readings, |old(readings)|, |readings| - 1))
    {
      hide *;
      asked := receipts;
      NoRounds(receipts, readings);
      var remaining := MaxRounds(timeout);
      var now := CleanupNow();
      while asked != map[] && remaining > 0 && now < deadline
        invariant Valid() && Accounted(asked) && old(readings) <= readings && asked.Keys == receipts.Keys
        invariant now == clock && |readings| == |old(readings)| + MaxRounds(timeout) - remaining
        invariant IsAskedInEach(asked, receipts, readings, |old(readings)|, |readings|)
        decreases remaining
      {
        remaining := remaining - 1;
        ghost var past := readings;
        var reading := ReadInventory();
        OneMoreReading(asked, receipts, past, reading, |old(readings)|);
        now := CleanupNow();
        if now >= deadline {
          break;
        }
        ghost var before := asked;
        var pending;
        asked, pending := AskAgain(asked, Word(reading));
        OneMoreRound(before, asked, receipts, past, reading, |old(readings)|);
        if !pending {
          break;
        }
        now := CleanupNow();
        if deadline - now <= 0.0 {
          break;
        }
        Sleep();
        now := CleanupNow();
      }
    }

    /** The last inventory, tried again once after an interrupt; it is read whenever the deadline
        has not passed. */
    method FinalInventory(deadline: real) returns (inventory: Option<Inventory>)
      requires Valid()
      modifies this`clock, this`interrupted, this`readings, this`looks, this`ticks
      ensures Valid() && old(readings) <= readings
      ensures var n, t := |old(readings)|, old(ticks);
              if Latest(driver, t + 1) >= deadline then inventory == None && readings == old(readings) && clock >= deadline
              else if !driver.inventories(n).Interrupted? then
                readings == old(readings) + [driver.inventories(n)] && inventory == Word(driver.inventories(n))
              else if Latest(driver, t + 2) >= deadline then
                inventory == None && readings == old(readings) + [driver.inventories(n)] && clock >= deadline
              else
                && readings == old(readings) + [driver.inventories(n)] + [driver.inventories(n + 1)]
                && inventory == Word(driver.inventories(n + 1))
    {
      hide WasInterrupted, Latest;
      var now := CleanupNow();
      if now >= deadline {
        return None;
      }
      var reading := ReadInventory();
      if reading.Interrupted? {
        now := CleanupNow();
        if now >= deadline {
          return None;
        }
        reading := ReadInventory();
      }
      inventory := Word(reading);
    }
  }
}
