/**
 * The subscription registry as a compacted log.
 *
 * The server keeps one entry per target, and a subscribe or unsubscribe acts on the targets it lists.
 * The client keeps one single-instrument request per key. Replaying the client's values, in any order,
 * rebuilds the server's entries.
 */
module Registry {
  import opened Basics
  import opened Requests

  type Server = map<Target, Options>
  type Registry = map<string, Request>

  // ---- the server's side ---------------------------------------------------------

  function TargetsUpTo(r: Request, n: nat): set<Target>
    requires n <= Count(r)
  {
    set i | 0 <= i < n :: TargetAt(r, i)
  }

  function Targets(r: Request): set<Target> {
    TargetsUpTo(r, Count(r))
  }

  /** What a request does to the server's subscription list. */
  function Apply(s: Server, r: Request): Server {
    match ActionOf(r)
    case ActionSubscribe => s + (map t | t in Targets(r) :: OptionsOf(r))
    case ActionUnsubscribe => s - Targets(r)
    case ActionUnspecified => s
  }

  function ApplyAll(s: Server, rs: seq<Request>): Server {
    if rs == [] then s else Apply(ApplyAll(s, rs[..|rs| - 1]), rs[|rs| - 1])
  }

  // ---- the client's side ---------------------------------------------------------

  function RememberUpTo(reg: Registry, r: Request, n: nat): Registry
    requires n <= Count(r)
  {
    if n == 0 then reg else RememberUpTo(reg, r, n - 1)[Key(TargetAt(r, n - 1)) := Single(r, n - 1)]
  }

  function ForgetUpTo(reg: Registry, r: Request, n: nat): Registry
    requires n <= Count(r)
  {
    if n == 0 then reg else ForgetUpTo(reg, r, n - 1) - {Key(TargetAt(r, n - 1))}
  }

  /** The registry part of `send` with `remember` set: store one request per key, or erase every key. */
  function Update(reg: Registry, r: Request): Registry {
    match ActionOf(r)
    case ActionSubscribe => RememberUpTo(reg, r, Count(r))
    case ActionUnsubscribe => ForgetUpTo(reg, r, Count(r))
    case ActionUnspecified => reg
  }

  function UpdateAll(reg: Registry, rs: seq<Request>): Registry {
    if rs == [] then reg else Update(UpdateAll(reg, rs[..|rs| - 1]), rs[|rs| - 1])
  }

  /** Each stored request subscribes to exactly the target its key names. */
  predicate Entry(k: string, r: Request) {
    ActionOf(r) == ActionSubscribe && Count(r) == 1 && Key(TargetAt(r, 0)) == k
  }

  ghost predicate WellKeyed(reg: Registry) {
    forall k :: k in reg ==> Entry(k, reg[k])
  }

  // ---- one target at a time --------------------------------------------------------

  function AtServer(s: Server, t: Target): Option<Options> {
    if t in s then Some(s[t]) else None
  }

  function AtRegistry(reg: Registry, t: Target): Option<Options> {
    if Key(t) in reg then Some(OptionsOf(reg[Key(t)])) else None
  }

  /** The registry holds, target by target, exactly the server list `s`. */
  ghost predicate Represents(reg: Registry, s: Server) {
    WellKeyed(reg) && forall t :: AtRegistry(reg, t) == AtServer(s, t)
  }

  /** What a request means for one target. */
  function Effect(r: Request, t: Target, before: Option<Options>): Option<Options> {
    if t !in Targets(r) then before
    else match ActionOf(r)
      case ActionSubscribe => Some(OptionsOf(r))
      case ActionUnsubscribe => None
      case ActionUnspecified => before
  }

  lemma ServerEffect(s: Server, r: Request, t: Target)
    ensures AtServer(Apply(s, r), t) == Effect(r, t, AtServer(s, t))
  {
  }

  lemma {:induction false} RememberAt(reg: Registry, r: Request, n: nat, t: Target)
    requires n <= Count(r)
    ensures AtRegistry(RememberUpTo(reg, r, n), t) ==
            if t in TargetsUpTo(r, n) then Some(OptionsOf(r)) else AtRegistry(reg, t)
  {
    hide Key;
    if n != 0 {
      var u := TargetAt(r, n - 1);
      RememberAt(reg, r, n - 1, t);
      SingleKeepsTarget(r, n - 1);
      assert TargetsUpTo(r, n) == TargetsUpTo(r, n - 1) + {u};
      if Key(t) == Key(u) { KeyInjective(t, u); }
    }
  }

  lemma {:induction false} ForgetAt(reg: Registry, r: Request, n: nat, t: Target)
    requires n <= Count(r)
    ensures AtRegistry(ForgetUpTo(reg, r, n), t) == if t in TargetsUpTo(r, n) then None else AtRegistry(reg, t)
  {
    hide Key;
    if n != 0 {
      var u := TargetAt(r, n - 1);
      ForgetAt(reg, r, n - 1, t);
      assert TargetsUpTo(r, n) == TargetsUpTo(r, n - 1) + {u};
      if Key(t) == Key(u) { KeyInjective(t, u); }
    }
  }

  lemma RegistryEffect(reg: Registry, r: Request, t: Target)
    ensures AtRegistry(Update(reg, r), t) == Effect(r, t, AtRegistry(reg, t))
  {
    hide Key;
    RememberAt(reg, r, Count(r), t);
    ForgetAt(reg, r, Count(r), t);
  }

  lemma {:induction false} RememberWellKeyed(reg: Registry, r: Request, n: nat)
    requires n <= Count(r) && WellKeyed(reg) && ActionOf(r) == ActionSubscribe
    ensures WellKeyed(RememberUpTo(reg, r, n))
  {
    hide Key;
    if n != 0 {
      RememberWellKeyed(reg, r, n - 1);
      SingleKeepsTarget(r, n - 1);
    }
  }

  lemma {:induction false} ForgetWellKeyed(reg: Registry, r: Request, n: nat)
    requires n <= Count(r) && WellKeyed(reg)
    ensures WellKeyed(ForgetUpTo(reg, r, n))
  {
    hide Key;
    if n != 0 {
      ForgetWellKeyed(reg, r, n - 1);
    }
  }

  // ---- what a message leaves behind ----------------------------------------------------

  /** A message of any of the five kinds that subscribes, read off its own action field, is remembered and served. */
  lemma SubscribeIsStored(reg: Registry, s: Server, r: Request, i: nat)
    requires !r.Other? && r.action == ActionSubscribe && i < |KeysOf(r)|
    ensures AtRegistry(Update(reg, r), TargetAt(r, i)) == Some(OptionsOf(r))
    ensures AtServer(Apply(s, r), TargetAt(r, i)) == Some(OptionsOf(r))
  {
    hide Key, Update, Apply, OptionsOf;
    assert TargetAt(r, i) in Targets(r);
    RegistryEffect(reg, r, TargetAt(r, i));
    ServerEffect(s, r, TargetAt(r, i));
  }

  /** And one that unsubscribes is forgotten. */
  lemma UnsubscribeIsErased(reg: Registry, s: Server, r: Request, i: nat)
    requires !r.Other? && r.action == ActionUnsubscribe && i < |KeysOf(r)|
    ensures AtRegistry(Update(reg, r), TargetAt(r, i)) == None
    ensures AtServer(Apply(s, r), TargetAt(r, i)) == None
  {
    hide Key, Update, Apply;
    assert TargetAt(r, i) in Targets(r);
    RegistryEffect(reg, r, TargetAt(r, i));
    ServerEffect(s, r, TargetAt(r, i));
  }

  /** Everything else leaves both sides alone. */
  lemma OtherMessagesChangeNothing(reg: Registry, s: Server, r: Request)
    requires r.Other? || r.action == ActionUnspecified
    ensures Update(reg, r) == reg && Apply(s, r) == s
  {
  }

  /** `q` is the message `r` with the j-th of its instruments alone. */
  predicate IsCut(q: Request, r: Request, j: nat) {
    match r
    case Candles(a, xs, w, s) => j < |xs| && q == Candles(a, [xs[j]], w, s)
    case OrderBook(a, xs) => j < |xs| && q == OrderBook(a, [xs[j]])
    case Trades(a, xs, s, o) => j < |xs| && q == Trades(a, [xs[j]], s, o)
    case Info(a, xs) => j < |xs| && q == Info(a, [xs[j]])
    case LastPrice(a, xs) => j < |xs| && q == LastPrice(a, [xs[j]])
    case Other(_) => false
  }

  lemma {:induction false} RememberStores(reg: Registry, r: Request, n: nat, i: nat) returns (j: nat)
    requires i < n <= Count(r)
    ensures i <= j < n && Key(TargetAt(r, j)) == Key(TargetAt(r, i))
    ensures Key(TargetAt(r, i)) in RememberUpTo(reg, r, n)
    ensures IsCut(RememberUpTo(reg, r, n)[Key(TargetAt(r, i))], r, j)
  {
    hide Key;
    if Key(TargetAt(r, n - 1)) == Key(TargetAt(r, i)) { j := n - 1; }
    else { j := RememberStores(reg, r, n - 1, i); }
  }

  /**
   * What is stored for each instrument of a subscribe, and so replayed, is the message itself, every field of it,
   * with one instrument: that one, or a later one of the same feed.
   */
  lemma StoredIsTheMessage(reg: Registry, r: Request, i: nat) returns (j: nat)
    requires !r.Other? && r.action == ActionSubscribe && i < |KeysOf(r)|
    ensures i <= j < |KeysOf(r)| && SameFeed(r, j, r, i)
    ensures KeysOf(r)[i] in Update(reg, r) && IsCut(Update(reg, r)[KeysOf(r)[i]], r, j)
  {
    hide Key, IsCut;
    j := RememberStores(reg, r, Count(r), i);
    SameKeyIffSameFeed(r, j, r, i);
  }

  // ---- whole lists -------------------------------------------------------------------

  lemma SameServer(s: Server, s': Server)
    requires forall t :: AtServer(s, t) == AtServer(s', t)
    ensures s == s'
  {
    assert forall t :: t in s <==> AtServer(s, t).Some?;
    assert forall t :: t in s' <==> AtServer(s', t).Some?;
  }

  /** A registry stands for one server list only. */
  lemma RepresentsUnique(reg: Registry, s: Server, s': Server)
    requires Represents(reg, s) && Represents(reg, s')
    ensures s == s'
  {
    hide Key;
    forall t ensures AtServer(s, t) == AtServer(s', t) {
      assert AtRegistry(reg, t) == AtServer(s, t);
    }
    SameServer(s, s');
  }

  /** One remembered request moves the registry and the server list it stands for in step. */
  lemma UpdateRepresents(reg: Registry, s: Server, r: Request)
    requires Represents(reg, s)
    ensures Represents(Update(reg, r), Apply(s, r))
  {
    hide Key;
    if ActionOf(r) == ActionSubscribe { RememberWellKeyed(reg, r, Count(r)); }
    ForgetWellKeyed(reg, r, Count(r));
    forall t ensures AtRegistry(Update(reg, r), t) == AtServer(Apply(s, r), t) {
      ServerEffect(s, r, t);
      RegistryEffect(reg, r, t);
    }
  }

  lemma {:induction false} UpdateAllRepresents(reg: Registry, s: Server, rs: seq<Request>)
    requires Represents(reg, s)
    ensures Represents(UpdateAll(reg, rs), ApplyAll(s, rs))
  {
    hide Key;
    if rs != [] {
      UpdateAllRepresents(reg, s, rs[..|rs| - 1]);
      UpdateRepresents(UpdateAll(reg, rs[..|rs| - 1]), ApplyAll(s, rs[..|rs| - 1]), rs[|rs| - 1]);
    }
  }

  // ---- replay ---------------------------------------------------------------------

  /** An order in which a registry may be walked: every key once, and nothing but keys. */
  ghost predicate Enumerates(order: seq<string>, reg: Registry) {
    && (forall k :: k in reg <==> k in order)
    && (forall i, j :: 0 <= i < j < |order| ==> order[i] != order[j])
  }

  function Replay(reg: Registry, order: seq<string>): seq<Request>
    requires forall k :: k in order ==> k in reg
  {
    seq(|order|, i requires 0 <= i < |order| => reg[order[i]])
  }

  /** After replaying a part of the walk, the server knows exactly the targets whose keys were walked. */
  lemma {:induction false} ReplayAt(reg: Registry, order: seq<string>, t: Target)
    requires WellKeyed(reg) && forall k :: k in order ==> k in reg
    ensures AtServer(ApplyAll(map[], Replay(reg, order)), t) ==
            if Key(t) in order then AtRegistry(reg, t) else None
  {
    hide Key;
    if order != [] {
      var n := |order| - 1;
      var k, r := order[n], reg[order[n]];
      ReplayAt(reg, order[..n], t);
      assert Replay(reg, order)[..n] == Replay(reg, order[..n]);
      assert order == order[..n] + [k];
      ServerEffect(ApplyAll(map[], Replay(reg, order[..n])), r, t);
      assert Entry(k, r);
      assert Targets(r) == {TargetAt(r, 0)};
      if Key(t) == k { KeyInjective(t, TargetAt(r, 0)); }
    }
  }

  /** Sending a registry's values to an empty server, in any order, gives the list the registry stands for. */
  lemma ReplayRepresents(reg: Registry, order: seq<string>)
    requires WellKeyed(reg) && Enumerates(order, reg)
    ensures Represents(reg, ApplyAll(map[], Replay(reg, order)))
  {
    hide Key;
    forall t ensures AtRegistry(reg, t) == AtServer(ApplyAll(map[], Replay(reg, order)), t) {
      ReplayAt(reg, order, t);
    }
  }

  /**
   * Replay is a sound log compaction: after any history of remembered requests, sending the registry's
   * values in any order to an empty server gives the state that sending the whole history gives.
   */
  lemma ReplayCompactsHistory(history: seq<Request>, order: seq<string>)
    requires Enumerates(order, UpdateAll(map[], history))
    ensures ApplyAll(map[], Replay(UpdateAll(map[], history), order)) == ApplyAll(map[], history)
  {
    hide Key;
    UpdateAllRepresents(map[], map[], history);
    ReplayRepresents(UpdateAll(map[], history), order);
    RepresentsUnique(UpdateAll(map[], history), ApplyAll(map[], history),
                     ApplyAll(map[], Replay(UpdateAll(map[], history), order)));
  }
}
