/** Which caches the activate handler retires. */
module Generations {
  import opened Text
  import opened Config

  /**
   * The activate filter: a cache of this application's family that is
   * neither of the two current caches.
   */
  predicate IsRetired(name: string)
  {
    StartsWith(name, FamilyPrefix) && name != CacheName && name != CacheNameDynamic
  }

  /** The names the activate handler leaves, in their order. */
  function Survivors(names: seq<string>): (r: seq<string>)
    ensures forall n :: n in r <==> n in names && !IsRetired(n)
    ensures |r| <= |names|
    decreases |names|
  {
    if names == [] then []
    else
      var last := names[|names| - 1];
      var rest := Survivors(names[..|names| - 1]);
      assert forall n :: n in names <==> n in names[..|names| - 1] || n == last;
      if IsRetired(last) then rest else rest + [last]
  }

  /** Appending one name appends it to the survivors exactly when it is not retired. */
  lemma SurvivorsSnoc(names: seq<string>, last: string)
    ensures Survivors(names + [last]) == Survivors(names) + (if IsRetired(last) then [] else [last])
  {
    var whole := names + [last];
    assert whole[..|whole| - 1] == names;
    assert whole[|whole| - 1] == last;
  }

  /** A single name survives as itself or not at all. */
  lemma SurvivorsOne(name: string)
    ensures Survivors([name]) == if IsRetired(name) then [] else [name]
  {
    assert [name][..0] == [];
  }

  /**
   * The filter keeps the order of `caches.keys()`: the survivors of a list are
   * the survivors of its front followed by those of its back.
   */
  lemma {:induction false} SurvivorsInOrder(front: seq<string>, back: seq<string>)
    ensures Survivors(front + back) == Survivors(front) + Survivors(back)
    decreases |back|
  {
    if back == [] {
      assert front + back == front;
    } else {
      var init := back[..|back| - 1];
      var last := back[|back| - 1];
      var kept := if IsRetired(last) then [] else [last];
      calc {
        Survivors(front + back);
        { assert front + back == (front + init) + [last]; }
        Survivors((front + init) + [last]);
        { SurvivorsSnoc(front + init, last); }
        Survivors(front + init) + kept;
        { SurvivorsInOrder(front, init); }
        Survivors(front) + Survivors(init) + kept;
        Survivors(front) + (Survivors(init) + kept);
        { SurvivorsSnoc(init, last); assert back == init + [last]; }
        Survivors(front) + Survivors(back);
      }
    }
  }

  /** The two caches of the current generation are never retired. */
  lemma CurrentCachesSurvive()
    ensures !IsRetired(CacheName) && !IsRetired(CacheNameDynamic)
  {
  }

  /** Caches of other applications on the same origin are never retired. */
  lemma ForeignCachesSurvive(name: string)
    requires !StartsWith(name, FamilyPrefix)
    ensures !IsRetired(name)
  {
  }

  /** Every cache this application creates carries the family prefix. */
  lemma NamesInFamily(version: string)
    ensures StartsWith(ShellCacheName(version), FamilyPrefix)
    ensures StartsWith(DynamicCacheName(version), FamilyPrefix)
  {
    assert (FamilyPrefix + version)[..|FamilyPrefix|] == FamilyPrefix;
    assert (FamilyPrefix + "dynamic-" + version)[..|FamilyPrefix|] == FamilyPrefix;
  }

  /**
   * The dynamic cache of any other version is retired, and so is its shell
   * cache, unless that version is spelt "dynamic-" + the current version, whose
   * shell-cache name is the current dynamic cache's name.
   */
  lemma EarlierGenerationsRetired(version: string)
    requires version != CacheVersion
    ensures IsRetired(DynamicCacheName(version))
    ensures version != "dynamic-" + CacheVersion ==> IsRetired(ShellCacheName(version))
  {
    NamesInFamily(version);
    var d := DynamicCacheName(version);
    var prefix := FamilyPrefix + "dynamic-";
    assert d == prefix + version && CacheNameDynamic == prefix + CacheVersion;
    assert d[|prefix|..] == version && CacheNameDynamic[|prefix|..] == CacheVersion;
  }

  /** The name collision the naming scheme allows. */
  lemma ShellAndDynamicNamesCollide()
    ensures ShellCacheName("dynamic-" + CacheVersion) == CacheNameDynamic
    ensures !IsRetired(ShellCacheName("dynamic-" + CacheVersion))
  {
  }
}
