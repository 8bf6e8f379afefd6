/** Which queues a worker reads, and in which order.

    A raw entry without `*` is an exact name; one that ends in `*` is a prefix, with every
    `*` in it removed; any other entry selects nothing. */
module QueueSelector {
  import opened Tables

  predicate IsExact(raw: string) {
    '*' !in raw
  }

  predicate IsPrefixed(raw: string) {
    |raw| > 0 && raw[|raw| - 1] == '*'
  }

  /** `raw.replace("*", "")` */
  function Prefix(raw: string): string {
    if raw == "" then "" else (if raw[0] == '*' then "" else [raw[0]]) + Prefix(raw[1..])
  }

  predicate Matches(raw: string, name: string) {
    if IsExact(raw) then name == raw else IsPrefixed(raw) && Prefix(raw) <= name
  }

  /** An entry without a star is the name itself, one with a star at its end the beginning of
      names; an entry that goes on after its last star matches nothing. */
  lemma EntryMeans(stem: string, queue: string)
    requires '*' !in stem
    ensures Matches(stem, queue) <==> queue == stem
    ensures Matches(stem + "*", queue) <==> stem <= queue
    ensures stem != "" ==> !Matches("*" + stem, queue)
  {
    PrefixOfStem(stem);
    assert (stem + "*")[|stem|] == '*';
    assert ("*" + stem)[0] == '*' && (stem != "" ==> ("*" + stem)[|stem|] == stem[|stem| - 1]);
  }

  lemma {:induction false} PrefixOfStem(stem: string)
    requires '*' !in stem
    ensures Prefix(stem + "*") == stem
  {
    if stem == "" {
      assert "*"[1..] == "";
    } else {
      PrefixOfStem(stem[1..]);
      assert (stem + "*")[1..] == stem[1..] + "*" && (stem + "*")[0] == stem[0];
      assert stem == [stem[0]] + stem[1..];
    }
  }

  // ----- Lists of names -----

  /** `names` without those in `dropped`. */
  function Without(names: seq<string>, dropped: set<string>): (r: seq<string>)
    ensures forall q :: q in r <==> q in names && q !in dropped
    ensures forall q :: multiset(r)[q] == if q in dropped then 0 else multiset(names)[q]
  {
    if names == [] then []
    else
      var last := |names| - 1;
      assert names == names[..last] + [names[last]];
      Without(names[..last], dropped) + if names[last] in dropped then [] else [names[last]]
  }

  /** The names that begin with `prefix`, or the others. */
  function Beginning(names: seq<string>, prefix: string, with: bool): (r: seq<string>)
    ensures forall q :: multiset(r)[q] == if (prefix <= q) == with then multiset(names)[q] else 0
    ensures forall q :: q in r <==> q in names && (prefix <= q) == with
    ensures |r| <= |names|
  {
    if names == [] then []
    else
      assert names == [names[0]] + names[1..];
      (if (prefix <= names[0]) == with then [names[0]] else []) + Beginning(names[1..], prefix, with)
  }

  /** `names.remove(name)`: the first occurrence goes. */
  function RemoveOne(names: seq<string>, name: string): (r: seq<string>)
    requires name in names
    ensures multiset(r) == multiset(names) - multiset{name}
    ensures forall q :: q in r ==> q in names
  {
    assert names == [names[0]] + names[1..];
    if names[0] == name then names[1..] else [names[0]] + RemoveOne(names[1..], name)
  }

  // ----- Ordering names by the raw entries -----

  /** What one raw entry takes out of the list. */
  datatype Taken = Taken(names: seq<string>, rest: seq<string>)

  /** `delete_in_order`: an exact name that is not in the list any more is an error. */
  function Take(raw: string, names: seq<string>): Option<Taken> {
    if IsExact(raw) then
      if raw in names then Some(Taken([raw], RemoveOne(names, raw))) else None
    else if IsPrefixed(raw) then
      Some(Taken(Beginning(names, Prefix(raw), true), Beginning(names, Prefix(raw), false)))
    else
      Some(Taken([], names))
  }

  function TakeAll(raws: seq<string>, names: seq<string>): Option<Taken> {
    if raws == [] then Some(Taken([], names))
    else
      match Take(raws[0], names)
      case None => None
      case Some(first) =>
        match TakeAll(raws[1..], first.rest)
        case None => None
        case Some(others) => Some(Taken(first.names + others.names, others.rest))
  }

  predicate HasPrefixes(raws: seq<string>) {
    exists raw :: raw in raws && IsPrefixed(raw)
  }

  /** `in_raw_order` */
  function RawOrder(raws: seq<string>, names: seq<string>): Option<seq<string>> {
    if |names| == 1 || !HasPrefixes(raws) then Some(names)
    else
      match TakeAll(raws, names)
      case None => None
      case Some(taken) => Some(Without(taken.names, {""}))
  }

  // ----- When ordering fails, and what it returns -----

  ghost predicate Shadows(raws: seq<string>, i: nat, j: nat) {
    i < j < |raws| && IsPrefixed(raws[i]) && IsExact(raws[j]) && Prefix(raws[i]) <= raws[j]
  }

  /** An exact name comes after a prefix that matches it. */
  ghost predicate Shadowed(raws: seq<string>) {
    exists i, j :: Shadows(raws, i, j)
  }

  function CountExact(raws: seq<string>, name: string): nat {
    if raws == [] then 0 else (if IsExact(raws[0]) && raws[0] == name then 1 else 0) + CountExact(raws[1..], name)
  }

  ghost predicate AnyPrefix(raws: seq<string>, name: string) {
    exists i :: 0 <= i < |raws| && IsPrefixed(raws[i]) && Prefix(raws[i]) <= name
  }

  /** The list holds every exact name as often as the raw entries, and other names only if a
      prefix matches them. */
  ghost predicate Supplies(raws: seq<string>, names: seq<string>) {
    forall q :: SuppliesName(raws, names, q)
  }

  ghost predicate SuppliesName(raws: seq<string>, names: seq<string>, q: string) {
    && CountExact(raws, q) <= multiset(names)[q]
    && (!AnyPrefix(raws, q) ==> multiset(names)[q] == CountExact(raws, q))
  }

  lemma TailShadowed(raws: seq<string>)
    requires raws != []
    ensures Shadowed(raws[1..]) ==> Shadowed(raws)
    ensures Shadowed(raws) && !Shadowed(raws[1..]) ==> exists j: nat :: Shadows(raws, 0, j)
  {
    var tail := raws[1..];
    if i: nat, j: nat :| Shadows(tail, i, j) {
      assert Shadows(raws, i + 1, j + 1);
    }
    if i: nat, j: nat :| Shadows(raws, i, j) {
      if i > 0 {
        assert Shadows(tail, i - 1, j - 1);
      }
    }
  }

  lemma TailAnyPrefix(raws: seq<string>, q: string)
    requires raws != []
    ensures AnyPrefix(raws, q) <==> (IsPrefixed(raws[0]) && Prefix(raws[0]) <= q) || AnyPrefix(raws[1..], q)
  {
    var tail := raws[1..];
    if i :| 0 <= i < |raws| && IsPrefixed(raws[i]) && Prefix(raws[i]) <= q {
      if i > 0 {
        assert tail[i - 1] == raws[i];
      }
    }
    if i :| 0 <= i < |tail| && IsPrefixed(tail[i]) && Prefix(tail[i]) <= q {
      assert raws[i + 1] == tail[i];
    }
  }

  lemma {:induction false} CountedIsThere(raws: seq<string>, q: string)
    ensures CountExact(raws, q) > 0 ==> exists j :: 0 <= j < |raws| && IsExact(raws[j]) && raws[j] == q
  {
    if raws != [] {
      CountedIsThere(raws[1..], q);
      if j :| 0 <= j < |raws[1..]| && IsExact(raws[1..][j]) && raws[1..][j] == q {
        assert raws[j + 1] == q;
      }
    }
  }

  /** What is taken by an entry that shadows nothing leaves what the other entries need. */
  lemma TakeSupplies(raws: seq<string>, names: seq<string>)
    requires raws != [] && Supplies(raws, names) && forall j: nat :: !Shadows(raws, 0, j)
    ensures Take(raws[0], names).Some? && Supplies(raws[1..], Take(raws[0], names).value.rest)
  {
    assert SuppliesName(raws, names, raws[0]);
    var rest := Take(raws[0], names).value.rest;
    forall q ensures SuppliesName(raws[1..], rest, q) {
      assert SuppliesName(raws, names, q);
      TailAnyPrefix(raws, q);
      if IsPrefixed(raws[0]) && Prefix(raws[0]) <= q {
        CountedIsThere(raws[1..], q);
        if j :| 0 <= j < |raws[1..]| && IsExact(raws[1..][j]) && raws[1..][j] == q {
          assert Shadows(raws, 0, j + 1);
        }
      }
    }
  }

  lemma NothingSupplied(names: seq<string>)
    requires Supplies([], names)
    ensures names == []
  {
    forall q ensures multiset(names)[q] == 0 {
      assert SuppliesName([], names, q);
    }
    assert multiset(names) == multiset{};
    assert |multiset(names)| == 0;
  }

  lemma TakeSplits(raw: string, names: seq<string>)
    requires Take(raw, names).Some?
    ensures var taken := Take(raw, names).value; multiset(taken.names) + multiset(taken.rest) == multiset(names)
  {
  }

  /** Unless an exact name is shadowed, the entries take everything out of the list. */
  lemma {:induction false} TakesAll(raws: seq<string>, names: seq<string>)
    requires Supplies(raws, names) && !Shadowed(raws)
    ensures TakeAll(raws, names).Some? && multiset(TakeAll(raws, names).value.names) == multiset(names)
    decreases |raws|
  {
    if raws == [] {
      NothingSupplied(names);
    } else {
      TailShadowed(raws);
      TakeSupplies(raws, names);
      var first := Take(raws[0], names).value;
      TakesAll(raws[1..], first.rest);
      TakeSplits(raws[0], names);
    }
  }

  lemma {:induction false} MissingFails(raws: seq<string>, names: seq<string>, j: nat)
    requires j < |raws| && IsExact(raws[j]) && raws[j] !in names
    ensures TakeAll(raws, names).None?
    decreases |raws|
  {
    if j > 0 && Take(raws[0], names).Some? {
      MissingFails(raws[1..], Take(raws[0], names).value.rest, j - 1);
    }
  }

  lemma {:induction false} ShadowedFails(raws: seq<string>, names: seq<string>)
    requires Supplies(raws, names) && Shadowed(raws)
    ensures TakeAll(raws, names).None?
    decreases |raws|
  {
    var i: nat, j: nat :| Shadows(raws, i, j);
    if j' : nat :| Shadows(raws, 0, j') {
      var rest := Take(raws[0], names).value.rest;
      MissingFails(raws[1..], rest, j' - 1);
    } else {
      TailShadowed(raws);
      TakeSupplies(raws, names);
      ShadowedFails(raws[1..], Take(raws[0], names).value.rest);
    }
  }

  // ----- The order of the names -----

  /** The first raw entry that matches the name. */
  function FirstMatch(raws: seq<string>, name: string): (n: nat)
    ensures n <= |raws|
    ensures n < |raws| ==> Matches(raws[n], name)
    ensures forall i :: 0 <= i < n ==> !Matches(raws[i], name)
  {
    if raws == [] || Matches(raws[0], name) then 0 else 1 + FirstMatch(raws[1..], name)
  }

  /** Names first appear in the order of the first raw entries that match them. */
  ghost predicate FollowsRaw(raws: seq<string>, names: seq<string>) {
    forall b, q :: 0 <= b < |names| && names[b] !in names[..b] && q in names[..b] ==>
      FirstMatch(raws, q) <= FirstMatch(raws, names[b])
  }

  lemma {:induction false} TakenAreThere(raws: seq<string>, names: seq<string>)
    requires TakeAll(raws, names).Some?
    ensures forall q :: q in TakeAll(raws, names).value.names ==> q in names
    decreases |raws|
  {
    if raws != [] {
      TakenAreThere(raws[1..], Take(raws[0], names).value.rest);
    }
  }

  /** A name that is left after an entry that matches it was taken by that entry too. */
  lemma LeftWasTaken(raw: string, names: seq<string>, q: string)
    requires Take(raw, names).Some? && Matches(raw, q) && q in Take(raw, names).value.rest
    ensures q in Take(raw, names).value.names
  {
  }

  lemma {:induction false} TakenFollowRaw(raws: seq<string>, names: seq<string>)
    requires TakeAll(raws, names).Some?
    ensures FollowsRaw(raws, TakeAll(raws, names).value.names)
    decreases |raws|
  {
    if raws != [] {
      var first := Take(raws[0], names).value;
      var others := TakeAll(raws[1..], first.rest).value;
      TakenFollowRaw(raws[1..], first.rest);
      TakenAreThere(raws[1..], first.rest);
      FollowsThen(raws, names, first, others.names);
    }
  }

  lemma TakenMatch(raw: string, names: seq<string>, q: string)
    requires Take(raw, names).Some? && q in Take(raw, names).value.names
    ensures Matches(raw, q)
  {
  }

  lemma LaterInOthers(first: seq<string>, others: seq<string>, b: nat, q: string)
    requires b < |first| + |others| && q !in first && q in (first + others)[..b]
    ensures b >= |first| && (first + others)[b] == others[b - |first|] && q in others[..b - |first|]
    ensures (first + others)[..b] == first + others[..b - |first|]
  {
    assert (first + others)[..b] == first + others[..b - |first|];
  }

  lemma FollowsThen(raws: seq<string>, names: seq<string>, first: Taken, others: seq<string>)
    requires raws != [] && Take(raws[0], names) == Some(first)
    requires FollowsRaw(raws[1..], others) && forall q :: q in others ==> q in first.rest
    ensures FollowsRaw(raws, first.names + others)
  {
    hide Take, Matches;
    var all, n := first.names + others, |first.names|;
    forall b, q | 0 <= b < |all| && all[b] !in all[..b] && q in all[..b]
      ensures FirstMatch(raws, q) <= FirstMatch(raws, all[b])
    {
      if q in first.names {
        TakenMatch(raws[0], names, q);
      } else {
        LaterInOthers(first.names, others, b, q);
        if Matches(raws[0], all[b]) {
          LeftWasTaken(raws[0], names, all[b]);
        }
      }
    }
  }

  lemma InitFollows(raws: seq<string>, names: seq<string>)
    requires FollowsRaw(raws, names) && names != []
    ensures FollowsRaw(raws, names[..|names| - 1])
  {
    var init := names[..|names| - 1];
    forall b, q | 0 <= b < |init| && init[b] !in init[..b] && q in init[..b]
      ensures FirstMatch(raws, q) <= FirstMatch(raws, init[b])
    {
      assert init[..b] == names[..b] && init[b] == names[b];
    }
  }

  lemma WithoutLast(names: seq<string>, dropped: set<string>)
    requires names != []
    ensures var init, name := names[..|names| - 1], names[|names| - 1];
            Without(names, dropped)
            == if name in dropped then Without(init, dropped) else Without(init, dropped) + [name]
  {
  }

  lemma WithoutFollowsLast(raws: seq<string>, names: seq<string>, dropped: set<string>, init: seq<string>, name: string)
    requires names == init + [name] && FollowsRaw(raws, names) && FollowsRaw(raws, Without(init, dropped))
    ensures FollowsRaw(raws, Without(names, dropped))
  {
    WithoutLast(names, dropped);
    assert names[..|names| - 1] == init;
    if name !in dropped {
      FollowsSnoc(raws, Without(init, dropped), name, init);
    }
  }

  /** Leaving names out does not disturb the order. */
  lemma {:induction false} WithoutFollows(raws: seq<string>, names: seq<string>, dropped: set<string>)
    requires FollowsRaw(raws, names)
    ensures FollowsRaw(raws, Without(names, dropped))
    decreases |names|
  {
    if names == [] {
      assert Without(names, dropped) == [];
    } else {
      var init, name := names[..|names| - 1], names[|names| - 1];
      InitFollows(raws, names);
      WithoutFollows(raws, init, dropped);
      WithoutFollowsLast(raws, names, dropped, init, name);
    }
  }

  lemma FollowsSnoc(raws: seq<string>, kept: seq<string>, name: string, init: seq<string>)
    requires FollowsRaw(raws, kept) && (name in kept <==> name in init) && forall q :: q in kept ==> q in init
    requires FollowsRaw(raws, init + [name])
    ensures FollowsRaw(raws, kept + [name])
  {
    var all := kept + [name];
    forall b, q | 0 <= b < |all| && all[b] !in all[..b] && q in all[..b]
      ensures FirstMatch(raws, q) <= FirstMatch(raws, all[b])
    {
      assert all[..b] == kept[..b];
      if b == |kept| {
        assert (init + [name])[..|init|] == init;
        assert (init + [name])[|init|] == name;
      } else {
        assert all[b] == kept[b];
      }
    }
  }

  // ----- The selector -----

  function ExactNames(raws: seq<string>): (r: seq<string>)
    ensures forall q :: q in r <==> q in raws && IsExact(q)
    ensures forall q :: multiset(r)[q] == CountExact(raws, q)
  {
    if raws == [] then [] else (if IsExact(raws[0]) then [raws[0]] else []) + ExactNames(raws[1..])
  }

  /** `prefixed_names`: the distinct queue names in the ready table, in the order that the
      query happens to give, which begin with some prefix. */
  ghost predicate IsPrefixedNames(raws: seq<string>, table: set<string>, names: seq<string>) {
    && (forall a, b :: 0 <= a < b < |names| ==> names[a] != names[b])
    && (forall q :: q in names <==> q in table && AnyPrefix(raws, q))
  }

  lemma AllSupplied(raws: seq<string>, table: set<string>, prefixed: seq<string>)
    requires IsPrefixedNames(raws, table, prefixed)
    ensures Supplies(raws, ExactNames(raws) + prefixed)
  {
    var names := ExactNames(raws) + prefixed;
    forall q ensures SuppliesName(raws, names, q) {
      assert multiset(names)[q] == multiset(ExactNames(raws))[q] + multiset(prefixed)[q];
      assert !AnyPrefix(raws, q) ==> q !in prefixed;
    }
  }

  /** Ordering fails exactly when an exact name comes after a prefix that matches it, unless
      there is only one name to order. */
  lemma {:induction false} RawOrderFails(raws: seq<string>, table: set<string>, prefixed: seq<string>)
    requires IsPrefixedNames(raws, table, prefixed)
    ensures var names := ExactNames(raws) + prefixed;
            RawOrder(raws, names).None? <==> |names| != 1 && Shadowed(raws)
  {
    var names := ExactNames(raws) + prefixed;
    AllSupplied(raws, table, prefixed);
    if Shadowed(raws) {
      var i: nat, j: nat :| Shadows(raws, i, j);
      assert raws[i] in raws && HasPrefixes(raws);
      ShadowedFails(raws, names);
    } else {
      TakesAll(raws, names);
    }
  }

  /** It does fail: for a prefix before a name that it matches, with another ready queue of
      that prefix. */
  lemma RawOrderCanFail()
    ensures var raws, table, prefixed := ["a*", "ab"], {"ac"}, ["ac"];
            IsPrefixedNames(raws, table, prefixed) && RawOrder(raws, ExactNames(raws) + prefixed).None?
  {
    var raws: seq<string>, prefixed: seq<string> := ["a*", "ab"], ["ac"];
    assert IsPrefixed(raws[0]) && Prefix("*") == "" && Prefix(raws[0]) == "a" by {
      assert "a*"[1..] == "*" && "*"[1..] == "";
    }
    assert IsExact(raws[1]) && !IsPrefixed(raws[1]);
    assert raws[1..] == ["ab"] && raws[1..][1..] == [];
    assert ExactNames(raws) == ["ab"];
    assert forall q :: AnyPrefix(raws, q) ==> "a" <= q;
    assert AnyPrefix(raws, "ac");
    assert IsPrefixedNames(raws, {"ac"}, prefixed);
    assert Shadows(raws, 0, 1);
    RawOrderFails(raws, {"ac"}, prefixed);
  }

  /** Otherwise it only permutes the names, dropping empty ones if there is anything to
      order, so that they first appear in the order of the raw entries that match them. */
  lemma {:induction false} RawOrderPermutes(raws: seq<string>, table: set<string>, prefixed: seq<string>)
    requires IsPrefixedNames(raws, table, prefixed)
    requires RawOrder(raws, ExactNames(raws) + prefixed).Some?
    ensures var names := ExactNames(raws) + prefixed; var r := RawOrder(raws, names).value;
            && (forall q :: q != "" || |names| == 1 || !HasPrefixes(raws) ==> multiset(r)[q] == multiset(names)[q])
            && (HasPrefixes(raws) && |names| != 1 ==> "" !in r && FollowsRaw(raws, r))
  {
    var names := ExactNames(raws) + prefixed;
    AllSupplied(raws, table, prefixed);
    RawOrderFails(raws, table, prefixed);
    if HasPrefixes(raws) && |names| != 1 {
      TakesAll(raws, names);
      TakenFollowRaw(raws, names);
      WithoutFollows(raws, TakeAll(raws, names).value.names, {""});
    }
  }

  /** Which ready rows a relation selects. */
  datatype Relation = AllRows | NoRows | QueuedAs(queue: string) {
    predicate Selects(queue: string) {
      AllRows? || (QueuedAs? && this.queue == queue)
    }
  }

  /** `queue_names`: `listed` and `prefixed` are the queries' answers, the distinct queue names
      in the ready table and those among them that some prefix matches. */
  function QueueNames(
      raws: seq<string>, listed: seq<string>, prefixed: seq<string>, paused: set<string>): Option<seq<string>>
  {
    if "*" in raws then Some(Without(listed, paused))
    else
      match RawOrder(raws, ExactNames(raws) + prefixed)
      case None => None
      case Some(names) => Some(Without(names, paused))
  }

  function Queued(names: seq<string>): seq<Relation> {
    seq(|names|, i requires 0 <= i < |names| => QueuedAs(names[i]))
  }

  function ScopedRelations(
      raws: seq<string>, listed: seq<string>, prefixed: seq<string>, paused: set<string>): Option<seq<Relation>>
  {
    if "*" in raws && paused == {} then Some([AllRows])
    else
      match QueueNames(raws, listed, prefixed, paused)
      case None => None
      case Some(names) => Some(if names == [] then [NoRows] else Queued(names))
  }

  ghost predicate Selected(relations: seq<Relation>, queue: string) {
    exists k :: 0 <= k < |relations| && relations[k].Selects(queue)
  }

  ghost predicate SomeMatches(raws: seq<string>, queue: string) {
    exists i :: 0 <= i < |raws| && Matches(raws[i], queue)
  }

  lemma StarMatchesAll(raws: seq<string>, queue: string)
    requires "*" in raws
    ensures SomeMatches(raws, queue)
  {
    var i :| 0 <= i < |raws| && raws[i] == "*";
    assert Prefix("*"[1..]) == "";
    assert Prefix(raws[i]) == "";
    assert Matches(raws[i], queue);
  }

  lemma MatchedNames(raws: seq<string>, queue: string)
    ensures SomeMatches(raws, queue) <==> (queue in raws && IsExact(queue)) || AnyPrefix(raws, queue)
  {
    if i :| 0 <= i < |raws| && Matches(raws[i], queue) {
      if !IsExact(raws[i]) {
        assert AnyPrefix(raws, queue);
      }
    }
    if queue in raws && IsExact(queue) {
      var i :| 0 <= i < |raws| && raws[i] == queue;
      assert Matches(raws[i], queue);
    }
    if i :| 0 <= i < |raws| && IsPrefixed(raws[i]) && Prefix(raws[i]) <= queue {
      assert raws[i][|raws[i]| - 1] == '*';
      assert Matches(raws[i], queue);
    }
  }

  /** Whether ordering keeps empty names: it drops them when there is anything to order. */
  predicate KeepsEmpty(raws: seq<string>, names: seq<string>) {
    |names| == 1 || !HasPrefixes(raws)
  }

  /** Without `*`, the selected names are the exact names and the ready table's names that a
      prefix matches, except the paused ones and, unless it is kept, the empty one. */
  lemma {:induction false} SelectedNames(
      raws: seq<string>, table: set<string>, listed: seq<string>, prefixed: seq<string>, paused: set<string>, q: string)
    requires "*" !in raws && IsPrefixedNames(raws, table, prefixed)
    requires QueueNames(raws, listed, prefixed, paused).Some?
    ensures q in QueueNames(raws, listed, prefixed, paused).value <==>
              && q !in paused && ((q in raws && IsExact(q)) || (q in table && AnyPrefix(raws, q)))
              && (q == "" ==> KeepsEmpty(raws, ExactNames(raws) + prefixed))
  {
    RawOrderPermutes(raws, table, prefixed);
    var names := ExactNames(raws) + prefixed;
    var r := RawOrder(raws, names).value;
    if q != "" || KeepsEmpty(raws, names) {
      assert multiset(r)[q] == multiset(names)[q];
      assert q in r <==> q in names;
    }
  }

  lemma QueuedSelects(names: seq<string>, queue: string)
    ensures Selected(if names == [] then [NoRows] else Queued(names), queue) <==> queue in names
  {
    if queue in names {
      var k :| 0 <= k < |names| && names[k] == queue;
      assert Queued(names)[k].Selects(queue);
    }
  }

  /** A ready row's queue is selected exactly when it is not paused and some raw entry
      matches it, `*` being a prefix that matches everything; the empty name, which every
      promoted job has, also has to be kept by the ordering unless `*` is an entry. With `*` and
      nothing paused there is one relation, of all rows, and otherwise one for each name. */
  lemma SelectsMatching(
      raws: seq<string>, table: set<string>, listed: seq<string>, prefixed: seq<string>, paused: set<string>,
      queue: string)
    requires IsPrefixedNames(raws, table, prefixed) && (forall q :: q in listed <==> q in table) && queue in table
    requires ScopedRelations(raws, listed, prefixed, paused).Some?
    ensures Selected(ScopedRelations(raws, listed, prefixed, paused).value, queue) <==>
              && queue !in paused && SomeMatches(raws, queue)
              && (queue == "" ==> "*" in raws || KeepsEmpty(raws, ExactNames(raws) + prefixed))
    ensures var relations := ScopedRelations(raws, listed, prefixed, paused).value;
            if "*" in raws && paused == {} then relations == [AllRows] else AllRows !in relations
  {
    if "*" in raws {
      StarMatchesAll(raws, queue);
      if paused == {} {
        assert [AllRows][0].Selects(queue);
      } else {
        QueuedSelects(Without(listed, paused), queue);
      }
    } else {
      SelectedNames(raws, table, listed, prefixed, paused, queue);
      MatchedNames(raws, queue);
      QueuedSelects(QueueNames(raws, listed, prefixed, paused).value, queue);
    }
  }

  /** So a worker reads the empty name with the entry `*`, unless it is paused, and never if
      each of its entries is a name or a prefix of one. */
  lemma EmptyNameSelected(
      raws: seq<string>, table: set<string>, listed: seq<string>, prefixed: seq<string>, paused: set<string>)
    requires IsPrefixedNames(raws, table, prefixed) && (forall q :: q in listed <==> q in table) && "" in table
    requires ScopedRelations(raws, listed, prefixed, paused).Some?
    ensures var relations := ScopedRelations(raws, listed, prefixed, paused).value;
            && ("*" in raws ==> (Selected(relations, "") <==> "" !in paused))
            && ((forall raw :: raw in raws ==> raw != "" && Prefix(raw) != "") ==> !Selected(relations, ""))
  {
    SelectsMatching(raws, table, listed, prefixed, paused, "");
    if "*" in raws {
      StarMatchesAll(raws, "");
    }
    if i :| 0 <= i < |raws| && Matches(raws[i], "") {
      assert raws[i] in raws;
      assert raws[i] == "" || Prefix(raws[i]) == "";
    }
  }

  // ----- Removing names in place -----

  /** The list that `in_raw_order` shares with `delete_in_order`. */
  class NameList {
    var names: seq<string>

    constructor (names: seq<string>)
      ensures this.names == names
    {
      this.names := names;
    }

    method Remove(name: string) returns (ok: bool)
      modifies this
      ensures ok <==> name in old(names)
      ensures names == if name in old(names) then RemoveOne(old(names), name) else old(names)
    {
      var i := 0;
      while i < |names|
        invariant 0 <= i <= |names| && names == old(names)
        invariant name !in names[..i]
      {
        if names[i] == name {
          RemoveOneAt(names, name, i);
          names := names[..i] + names[i + 1..];
          return true;
        }
        i := i + 1;
      }
      assert names[..|names|] == names;
      ok := false;
    }

    method DeleteInOrder(raw: string) returns (taken: Option<seq<string>>)
      modifies this
      ensures match Take(raw, old(names))
              case None => taken.None?
              case Some(t) => taken == Some(t.names) && names == t.rest
    {
      if IsExact(raw) {
        var ok := Remove(raw);
        return if ok then Some([raw]) else None;
      }
      if !IsPrefixed(raw) {
        return Some([]);
      }
      var prefix := Prefix(raw);
      var found := Beginning(names, prefix, true);
      for i := 0 to |found|
        invariant Beginning(names, prefix, true) == found[i..]
        invariant Beginning(names, prefix, false) == Beginning(old(names), prefix, false)
      {
        RemoveFound(names, prefix);
        assert found[i..][1..] == found[i + 1..];
        var _ := Remove(found[i]);
      }
      NothingFound(names, prefix);
      taken := Some(found);
    }
  }

  lemma {:induction false} RemoveOneAt(names: seq<string>, name: string, i: nat)
    requires i < |names| && names[i] == name && name !in names[..i]
    ensures RemoveOne(names, name) == names[..i] + names[i + 1..]
    decreases i
  {
    if i == 0 {
      assert RemoveOne(names, name) == names[1..];
    } else {
      var tail := names[1..];
      HeadBefore(names, name, i);
      RemoveOneAt(tail, name, i - 1);
      assert RemoveOne(names, name) == [names[0]] + RemoveOne(tail, name);
      SliceCons(names, i);
    }
  }

  lemma HeadBefore(names: seq<string>, name: string, i: nat)
    requires 0 < i < |names| && names[i] == name && name !in names[..i]
    ensures names[0] != name && names[1..][i - 1] == name && name !in names[1..][..i - 1]
  {
    assert names[0] == names[..i][0];
    assert names[1..][..i - 1] == names[..i][1..];
  }

  lemma SliceCons(names: seq<string>, i: nat)
    requires 0 < i < |names|
    ensures [names[0]] + (names[1..][..i - 1] + names[1..][i..]) == names[..i] + names[i + 1..]
  {
  }

  lemma BeginningCons(name: string, names: seq<string>, prefix: string, with: bool)
    ensures Beginning([name] + names, prefix, with)
            == (if (prefix <= name) == with then [name] else []) + Beginning(names, prefix, with)
  {
    assert ([name] + names)[1..] == names;
  }

  lemma {:induction false} RemoveFound(names: seq<string>, prefix: string)
    requires Beginning(names, prefix, true) != []
    ensures var name := Beginning(names, prefix, true)[0];
            && name in names
            && Beginning(RemoveOne(names, name), prefix, true) == Beginning(names, prefix, true)[1..]
            && Beginning(RemoveOne(names, name), prefix, false) == Beginning(names, prefix, false)
    decreases |names|
  {
    var name, x, tail := Beginning(names, prefix, true)[0], names[0], names[1..];
    assert name in Beginning(names, prefix, true);
    if prefix <= x {
      assert name == x && RemoveOne(names, name) == tail;
    } else {
      assert Beginning(tail, prefix, true) == Beginning(names, prefix, true);
      RemoveFound(tail, prefix);
      assert RemoveOne(names, name) == [x] + RemoveOne(tail, name);
      BeginningCons(x, RemoveOne(tail, name), prefix, true);
      BeginningCons(x, RemoveOne(tail, name), prefix, false);
    }
  }

  lemma {:induction false} NothingFound(names: seq<string>, prefix: string)
    requires Beginning(names, prefix, true) == []
    ensures Beginning(names, prefix, false) == names
    decreases |names|
  {
    if names != [] {
      NothingFound(names[1..], prefix);
    }
  }

  ghost predicate Continues(raws: seq<string>, names: seq<string>, i: nat, ordered: seq<string>, rest: seq<string>)
    requires i <= |raws|
  {
    TakeAll(raws, names) ==
      match TakeAll(raws[i..], rest)
      case None => None
      case Some(t) => Some(Taken(ordered + t.names, t.rest))
  }

  lemma ContinuesStart(raws: seq<string>, names: seq<string>)
    ensures Continues(raws, names, 0, [], names)
  {
    assert raws[0..] == raws;
    if TakeAll(raws, names).Some? {
      assert [] + TakeAll(raws, names).value.names == TakeAll(raws, names).value.names;
    }
  }

  lemma ContinuesStep(raws: seq<string>, names: seq<string>, i: nat, ordered: seq<string>, rest: seq<string>)
    requires i < |raws| && Continues(raws, names, i, ordered, rest)
    ensures match Take(raws[i], rest)
            case None => TakeAll(raws, names).None?
            case Some(t) => Continues(raws, names, i + 1, ordered + t.names, t.rest)
  {
    assert raws[i..][0] == raws[i] && raws[i..][1..] == raws[i + 1..];
    if Take(raws[i], rest).Some? {
      var t := Take(raws[i], rest).value;
      if TakeAll(raws[i + 1..], t.rest).Some? {
        var u := TakeAll(raws[i + 1..], t.rest).value;
        assert ordered + (t.names + u.names) == (ordered + t.names) + u.names;
      }
    }
  }

  method InRawOrder(raws: seq<string>, names: seq<string>) returns (r: Option<seq<string>>)
    ensures r == RawOrder(raws, names)
  {
    if |names| == 1 || !HasPrefixes(raws) {
      return Some(names);
    }
    var queues := new NameList(names);
    var ordered := [];
    ContinuesStart(raws, names);
    for i := 0 to |raws|
      invariant Continues(raws, names, i, ordered, queues.names)
    {
      ContinuesStep(raws, names, i, ordered, queues.names);
      var taken := queues.DeleteInOrder(raws[i]);
      if taken.None? {
        return None;
      }
      ordered := ordered + taken.value;
    }
    assert raws[|raws|..] == [];
    assert ordered + [] == ordered;
    r := Some(Without(ordered, {""}));
  }
}
