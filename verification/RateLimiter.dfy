/** The limiter object: methods mapped to shared groups, each group a fixed-window counter on the heap. */
module RateLimiter {
  import opened RateLimits

  class Group {
    const limit: int
    var count: int
    var start: int
    ghost var times: seq<int>  // every attempt made on the group

    constructor (limit: int)
      ensures View() == Fresh(limit) && this.limit == limit && times == []
      ensures forall length :: Follows(length)
    {
      this.limit, count, start, times := limit, 0, 0, [];
    }

    function View(): Window
      reads this
    {
      Window(limit, count, start)
    }

    /** The fields are what a fresh group's become under the attempts made. */
    ghost predicate Follows(length: int)
      reads this
    {
      View() == Run(limit, length, times).window
    }
  }

  /** One row of the tariff. */
  datatype UnaryLimit = UnaryLimit(perMinute: int, methods: seq<string>)

  /** The API reports names with a leading slash; the table is keyed without it. */
  function Name(reported: string): string {
    if reported != "" && reported[0] == '/' then reported[1..] else reported
  }

  predicate Lists(methods: seq<string>, m: string) {
    exists i :: 0 <= i < |methods| && Name(methods[i]) == m
  }

  /** The last of the first `n` rows that lists `m`, if any does. */
  function LastRow(rows: seq<UnaryLimit>, n: nat, m: string): (k: int)
    requires n <= |rows|
    ensures -1 <= k < n
    ensures k >= 0 ==> Lists(rows[k].methods, m)
    ensures forall i :: k < i < n ==> !Lists(rows[i].methods, m)
  {
    if n == 0 then -1 else if Lists(rows[n - 1].methods, m) then n - 1 else LastRow(rows, n - 1, m)
  }

  /** The table sends each method listed in the first `n` rows to the group of the last such row, and no other. */
  ghost predicate Tabled(table: map<string, Group>, groups: seq<Group>, rows: seq<UnaryLimit>, n: nat) {
    && |groups| == n <= |rows|
    && (forall m :: m in table <==> LastRow(rows, n, m) >= 0)
    && (forall m :: m in table ==> table[m] == groups[LastRow(rows, n, m)])
  }

  lemma NoRowYet(rows: seq<UnaryLimit>)
    ensures Tabled(map[], [], rows, 0)
  {
  }

  lemma RowTabled(
    before: map<string, Group>, after: map<string, Group>, groups: seq<Group>, g: Group, rows: seq<UnaryLimit>, n: nat)
    requires n < |rows| && Tabled(before, groups, rows, n)
    requires forall m :: m in after <==> m in before || Lists(rows[n].methods, m)
    requires forall m :: m in after ==> after[m] == if Lists(rows[n].methods, m) then g else before[m]
    ensures Tabled(after, groups + [g], rows, n + 1)
  {
    hide Lists;
  }

  lemma TabledMeans(table: map<string, Group>, groups: seq<Group>, rows: seq<UnaryLimit>)
    requires Tabled(table, groups, rows, |rows|)
    ensures |groups| == |rows|
    ensures forall m :: m in table <==> LastRow(rows, |rows|, m) >= 0
    ensures forall m :: m in table ==> table[m] == groups[LastRow(rows, |rows|, m)]
  {
    hide LastRow;
  }

  class RateLimiter {
    const length: int
    var byMethod: map<string, Group>

    constructor (length: int)
      ensures this.length == length && byMethod == map[]
    {
      this.length := length;
      byMethod := map[];
    }

    /** Point every listed method at `g`; the others keep their group. */
    method Assign(methods: seq<string>, g: Group)
      modifies this`byMethod
      ensures forall m :: m in byMethod <==> m in old(byMethod) || Lists(methods, m)
      ensures forall m :: m in byMethod ==> byMethod[m] == if Lists(methods, m) then g else old(byMethod)[m]
    {
      for n := 0 to |methods|
        invariant forall m :: m in byMethod <==> m in old(byMethod) || Lists(methods[..n], m)
        invariant forall m :: m in byMethod ==> byMethod[m] == if Lists(methods[..n], m) then g else old(byMethod)[m]
      {
        ListsAppend(methods, n);
        byMethod := byMethod[Name(methods[n]) := g];
      }
      assert methods[..|methods|] == methods;
    }

    /** One fresh group shared by all listed methods. */
    method SetLimit(methods: seq<string>, perMinute: int) returns (g: Group)
      modifies this`byMethod
      ensures fresh(g) && g.View() == Fresh(perMinute) && g.Follows(length) && g.times == []
      ensures forall m :: m in byMethod <==> m in old(byMethod) || Lists(methods, m)
      ensures forall m :: m in byMethod ==> byMethod[m] == if Lists(methods, m) then g else old(byMethod)[m]
    {
      g := new Group(perMinute);
      Assign(methods, g);
    }

    /** Rebuild the table: one fresh group per row, a method going to the last row that lists it. */
    method Configure(rows: seq<UnaryLimit>) returns (groups: seq<Group>)
      modifies this`byMethod
      ensures |groups| == |rows|
      ensures forall i :: 0 <= i < |rows| ==> fresh(groups[i]) && groups[i].View() == Fresh(rows[i].perMinute)
      ensures forall i :: 0 <= i < |rows| ==> groups[i].Follows(length) && groups[i].times == []
      ensures forall i, j :: 0 <= i < j < |rows| ==> groups[i] != groups[j]
      ensures forall m :: m in byMethod <==> LastRow(rows, |rows|, m) >= 0
      ensures forall m :: m in byMethod ==> byMethod[m] == groups[LastRow(rows, |rows|, m)]
    {
      hide Lists, Name, Run, Group.View, Group.Follows, LastRow, Tabled;
      NoRowYet(rows);
      byMethod := map[];
      groups := [];
      for n := 0 to |rows|
        invariant Tabled(byMethod, groups, rows, n)
        invariant |groups| == n
        invariant forall i :: 0 <= i < n ==> fresh(groups[i]) && groups[i].View() == Fresh(rows[i].perMinute)
        invariant forall i :: 0 <= i < n ==> groups[i].Follows(length) && groups[i].times == []
        invariant forall i, j :: 0 <= i < j < n ==> groups[i] != groups[j]
      {
        ghost var before := byMethod;
        var g := SetLimit(rows[n].methods, rows[n].perMinute);
        RowTabled(before, byMethod, groups, g, rows, n);
        groups := groups + [g];
      }
      TabledMeans(byMethod, groups, rows);
    }

    /** A method outside the table passes; inside it, one attempt on its group, touching no other group. */
    method TryAcquire(m: string, now: int) returns (granted: bool)
      requires m in byMethod ==> byMethod[m].Follows(length)
      modifies if m in byMethod then {byMethod[m]} else {}
      ensures m !in byMethod ==> granted
      ensures m in byMethod ==> var g := byMethod[m];
        && g.Follows(length) && g.times == old(g.times) + [now]
        && granted == !Refused(g.limit, length, old(g.times), now)
        && (g.limit <= 0 ==> granted)
    {
      if m !in byMethod { return true; }
      granted := TakeSlot(byMethod[m], now);
    }

    /** What `try_acquire` and each turn of `acquire` do to a group. */
    method TakeSlot(g: Group, now: int) returns (granted: bool)
      requires g.Follows(length)
      modifies g
      ensures g.Follows(length) && g.times == old(g.times) + [now]
      ensures granted == !Refused(g.limit, length, old(g.times), now)
      ensures g.limit <= 0 ==> granted
    {
      hide Run;
      RunSnoc(g.limit, length, g.times, now);
      g.times := g.times + [now];
      if g.limit <= 0 { return true; }
      RollWindow(g, now);
      if g.count < g.limit {
        g.count := g.count + 1;
        return true;
      }
      return false;
    }

    method RollWindow(g: Group, now: int)
      modifies g`start, g`count
      ensures g.View() == Roll(old(g.View()), now, length)
    {
      if now - g.start >= length {
        g.start := now;
        g.count := 0;
      }
    }

    /** Attempts by other threads, which get in while a waiter has the lock released. */
    method LetOthers(g: Group, others: seq<int>)
      requires g.Follows(length)
      modifies g
      ensures g.Follows(length) && g.times == old(g.times) + others
    {
      for i := 0 to |others|
        invariant g.Follows(length) && g.times == old(g.times) + others[..i]
      {
        var _ := TakeSlot(g, others[i]);
      }
    }

    /**
     * Blocks until a slot is free. The turns say what other threads do to the group meanwhile and what the
     * clock shows; the waiter keeps its group even if the table changes. It is served in the first turn that
     * is not refused, or is still waiting when the turns are over.
     */
    method Acquire(m: string, turns: seq<Turn>) returns (granted: bool, used: nat)
      requires m in byMethod ==> byMethod[m].Follows(length)
      modifies if m in byMethod then {byMethod[m]} else {}
      ensures m !in byMethod ==> granted && used == 0
      ensures m in byMethod ==> var g := byMethod[m];
        && g.Follows(length) && used <= |turns| && g.times == old(g.times) + Attempts(turns[..used])
        && (granted ==> Served(g.limit, length, old(g.times), turns, used))
        && (!granted ==> used == |turns| && StillWaiting(g.limit, length, old(g.times), turns))
        && (g.limit <= 0 && turns != [] ==> granted && used == 1)
    {
      hide Run, Refused;
      if m !in byMethod { return true, 0; }
      var g := byMethod[m];
      used := 0;
      while used < |turns|
        invariant used <= |turns| && g.Follows(length) && g.times == old(g.times) + Attempts(turns[..used])
        invariant forall k :: 0 <= k < used ==> RefusedAt(g.limit, length, old(g.times), turns, k)
        invariant g.limit <= 0 ==> used == 0
      {
        var turn := turns[used];
        LetOthers(g, turn.others);
        granted := TakeSlot(g, turn.reading);
        used := used + 1;
        assert turns[..used][..used - 1] == turns[..used - 1];
        if granted { return; }
      }
      granted := false;
    }
  }

  lemma ListsAppend(methods: seq<string>, n: nat)
    requires n < |methods|
    ensures forall m :: Lists(methods[..n + 1], m) <==> Lists(methods[..n], m) || m == Name(methods[n])
  {
  }

  /** A method is listed if and only if its name is reported as it is, without a slash, or with one put before it. */
  lemma ListsIff(methods: seq<string>, m: string)
    ensures Lists(methods, m) <==> "/" + m in methods || (m in methods && (m == "" || m[0] != '/'))
  {
    forall i | 0 <= i < |methods|
      ensures Name(methods[i]) == m <==> methods[i] == "/" + m || (methods[i] == m && (m == "" || m[0] != '/'))
    {
      var reported := methods[i];
      assert ("/" + m)[1..] == m;
      assert reported != "" && reported[0] == '/' ==> reported == "/" + reported[1..];
    }
  }

  /** A name that begins with a slash is in the table if and only if a row lists it with a second slash. */
  lemma SlashedNameListedIff(rows: seq<UnaryLimit>, m: string)
    requires m != "" && m[0] == '/'
    ensures LastRow(rows, |rows|, m) >= 0 <==>
      exists i, j :: 0 <= i < |rows| && 0 <= j < |rows[i].methods| && rows[i].methods[j] == "/" + m
  {
    forall i, j | 0 <= i < |rows| && 0 <= j < |rows[i].methods|
      ensures Name(rows[i].methods[j]) == m <==> rows[i].methods[j] == "/" + m
    {
      var reported := rows[i].methods[j];
      assert ("/" + m)[1..] == m;
      assert reported != "" && reported[0] == '/' ==> reported == "/" + reported[1..];
    }
    var k := LastRow(rows, |rows|, m);
    if k >= 0 {
      var j :| 0 <= j < |rows[k].methods| && Name(rows[k].methods[j]) == m;
      assert rows[k].methods[j] == "/" + m;
    }
    if i, j :| 0 <= i < |rows| && 0 <= j < |rows[i].methods| && rows[i].methods[j] == "/" + m {
      assert Lists(rows[i].methods, m);
    }
  }

  /** So the name the API reports for a method is not limited where its row lists it, the bare one is. */
  lemma ReportedNameIsNotLimited(bare: string, limit: int)
    requires bare != "" && bare[0] != '/'
    ensures var rows := [UnaryLimit(limit, ["/" + bare])];
      LastRow(rows, 1, bare) == 0 && LastRow(rows, 1, "/" + bare) == -1
  {
    var rows := [UnaryLimit(limit, ["/" + bare])];
    assert Name(rows[0].methods[0]) == bare;
    assert Lists(rows[0].methods, bare);
    SlashedNameListedIff(rows, "/" + bare);
    assert "/" + ("/" + bare) != "/" + bare;
  }
}
