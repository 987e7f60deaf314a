/** The units probed since the module was loaded: a circular table of eight
    keys that stands for the keys recorded last. */
module Seen {
  import opened Arith

  const SEEN_MAX := 8
  const KEYLEN := 64

  // What strscpy keeps of a key, and what strncmp compares.
  function Prefix(key: string): string {
    if |key| > KEYLEN - 1 then key[..KEYLEN - 1] else key
  }

  // The keys recorded last.
  function Recent(log: seq<string>): seq<string> {
    if |log| > SEEN_MAX then log[|log| - SEEN_MAX..] else log
  }

  // Eight in a row never name a unit twice.
  ghost predicate NoRepeat(log: seq<string>) {
    forall i, j :: 0 <= i < j < |log| && j < i + SEEN_MAX ==> log[i] != log[j]
  }

  lemma RecentAt(log: seq<string>, key: string)
    ensures key in Recent(log) <==> exists i :: 0 <= i < |log| && |log| <= i + SEEN_MAX && log[i] == key
  {
    var recent := Recent(log);
    var from := |log| - |recent|;
    if i :| 0 <= i < |log| && |log| <= i + SEEN_MAX && log[i] == key {
      assert recent[i - from] == key;
    }
    if key in recent {
      var k :| 0 <= k < |recent| && recent[k] == key;
      assert log[from + k] == key;
    }
  }

  // The recent keys are a queue: a new one joins at the end, and the oldest
  // leaves once there are eight.
  lemma RecentIsAQueue(log: seq<string>, key: string)
    ensures Recent(log + [key]) ==
            (if |Recent(log)| < SEEN_MAX then Recent(log) else Recent(log)[1..]) + [key]
  {
  }

  lemma RecentHasNoRepeat(log: seq<string>)
    requires NoRepeat(log)
    ensures forall i, j :: 0 <= i < j < |Recent(log)| ==> Recent(log)[i] != Recent(log)[j]
  {
    var from := |log| - |Recent(log)|;
    forall i, j | 0 <= i < j < |Recent(log)| ensures Recent(log)[i] != Recent(log)[j] {
      assert log[from + i] != log[from + j];
    }
  }

  // The table after a log: slot i holds the last key recorded at i modulo 8.
  ghost predicate Stands(table: seq<string>, next: nat, log: seq<string>) {
    && |table| == SEEN_MAX && next == |log| % SEEN_MAX
    && (forall j :: 0 <= j < |log| && |log| <= j + SEEN_MAX ==> table[j % SEEN_MAX] == log[j])
    && (forall i :: |log| <= i < SEEN_MAX ==> table[i] == "")
    && (forall j :: 0 <= j < |log| ==> log[j] != "" && |log[j]| < KEYLEN)
    && NoRepeat(log)
  }

  // A key is in the table exactly if it is among the recent ones.
  lemma FoundIsRecent(table: seq<string>, next: nat, log: seq<string>, key: string)
    requires Stands(table, next, log) && key != ""
    ensures key in table <==> key in Recent(log)
  {
    RecentAt(log, key);
    if j :| 0 <= j < |log| && |log| <= j + SEEN_MAX && log[j] == key {
      assert table[j % SEEN_MAX] == key;
    }
    if key in table {
      var i :| 0 <= i < SEEN_MAX && table[i] == key;
      var j := LastAt(|log|, i);
      assert table[j % SEEN_MAX] == log[j];
    }
  }

  // The last position below n with a given place modulo 8.
  lemma LastAt(n: nat, i: nat) returns (j: nat)
    requires i < SEEN_MAX && i < n
    ensures j < n <= j + SEEN_MAX && j % SEEN_MAX == i
  {
    var r := (n - 1 - i) % SEEN_MAX;
    j := n - 1 - r;
  }

  lemma Recorded(table: seq<string>, next: nat, log: seq<string>, key: string)
    requires Stands(table, next, log) && key !in Recent(log) && key != "" && |key| < KEYLEN
    ensures next < SEEN_MAX && Stands(table[next := key], (next + 1) % SEEN_MAX, log + [key])
  {
    hide Recent, NoRepeat;
    var n := |log|;
    StillNoRepeat(log, key);
    assert (next + 1) % SEEN_MAX == (n + 1) % SEEN_MAX;
    forall j: nat | j < n + 1 && n + 1 <= j + SEEN_MAX
      ensures table[next := key][j % SEEN_MAX] == (log + [key])[j]
    {
      OtherPlace(j, n);
    }
    if n < SEEN_MAX {
      assert next == n;
    }
  }

  lemma OtherPlace(j: nat, n: nat)
    requires j <= n < j + SEEN_MAX
    ensures j % SEEN_MAX == n % SEEN_MAX <==> j == n
  {
  }

  lemma StillNoRepeat(log: seq<string>, key: string)
    requires NoRepeat(log) && key !in Recent(log)
    ensures NoRepeat(log + [key])
  {
    RecentAt(log, key);
  }

  class Units {
    const keys: array<string>
    var next: nat
    // Every key recorded, in order.
    ghost var log: seq<string>

    ghost predicate Valid()
      reads this, keys
    {
      keys.Length == SEEN_MAX && Stands(keys[..], next, log)
    }

    constructor ()
      ensures Valid() && log == [] && fresh(keys)
    {
      keys := new string[SEEN_MAX](_ => "");
      next, log := 0, [];
    }

    // bf_seen_before
    method SeenBefore(serial: string, devName: string) returns (seen: bool)
      requires Valid() && devName != ""
      modifies this, keys
      ensures Valid()
      ensures var key := Prefix(if serial != "" then serial else devName);
              && (seen <==> key in Recent(old(log)))
              && log == old(log) + (if seen then [] else [key])
    {
      hide Stands, Recent;
      var key := Prefix(if serial != "" then serial else devName);
      FoundIsRecent(keys[..], next, log, key);
      var i := 0;
      while i < SEEN_MAX
        invariant 0 <= i <= SEEN_MAX
        invariant key !in keys[..i]
      {
        if keys[i] == key {
          assert keys[..][i] == key;
          assert log + [] == log;
          return true;
        }
        assert keys[..i + 1] == keys[..i] + [keys[i]];
        i := i + 1;
      }
      assert keys[..SEEN_MAX] == keys[..];
      Recorded(keys[..], next, log, key);
      ghost var table := keys[..];
      keys[next] := key;
      assert keys[..] == table[next := key];
      next := (next + 1) % SEEN_MAX;
      log := log + [key];
      seen := false;
    }
  }
}
