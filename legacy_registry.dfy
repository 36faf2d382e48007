/** The provider registry of the `gitsoviet/` Python package
    (gitsoviet/providers/registry.py): a dictionary from lower-cased provider
    name to factory, updated in place by `register` and read by `create` and
    `choices`. A factory is a function from the keyword arguments it is called
    with to the provider it builds. */
module LegacyRegistry {
  import opened Wrappers
  import opened Text

  /** The keyword arguments `create` passes on (the CLI passes `size`). */
  type Kwargs = map<string, string>

  const NoneAvailable: string := "<none>"

  /** `Unknown provider '<name>'. Available: <sorted names or <none>>`. */
  function UnknownProvider(name: string, names: set<string>): string {
    var joined := Join(SortedSet(names), ", ");
    "Unknown provider '" + name + "'. Available: " + (if joined == "" then NoneAvailable else joined)
  }

  /** What `create(name, **kwargs)` does with the dictionary `providers`: the
      factory under the lower-cased name, applied to the keyword arguments, or
      the `ValueError` for an unknown name. */
  function CreateFrom<P>(providers: map<string, Kwargs -> P>, name: string, kwargs: Kwargs): (r: Result<P, string>)
    ensures r.Success? <==> Lower(name) in providers
    ensures r.Success? ==> r.value == providers[Lower(name)](kwargs)
    ensures r.Failure? ==> r.error == UnknownProvider(name, providers.Keys)
  {
    var key := Lower(name);
    if key !in providers then Failure(UnknownProvider(name, providers.Keys))
    else Success(providers[key](kwargs))
  }

  class ProviderRegistry<P> {
    /** `self._providers`. */
    var providers: map<string, Kwargs -> P>

    /** Every key is stored lower-cased. */
    ghost predicate Valid()
      reads this
    {
      forall key :: key in providers ==> Lower(key) == key
    }

    constructor()
      ensures providers == map[]
      ensures Valid()
    {
      providers := map[];
    }

    /** `register`: stores the factory under the lower-cased name, replacing
        whatever was registered under any spelling of that name. */
    method Register(name: string, factory: Kwargs -> P)
      requires Valid()
      modifies this
      ensures providers == old(providers)[Lower(name) := factory]
      ensures Valid()
    {
      LowerIdempotent(name);
      providers := providers[Lower(name) := factory];
    }

    /** `create`: reads the dictionary and leaves it as it is. */
    method Create(name: string, kwargs: Kwargs) returns (r: Result<P, string>)
      ensures r == CreateFrom(providers, name, kwargs)
    {
      r := CreateFrom(providers, name, kwargs);
    }

    /** In a registry whose keys are all lower-cased, every stored key is
        found by `create` under its own spelling. */
    lemma StoredKeysFound(key: string, kwargs: Kwargs)
      requires Valid() && key in providers
      ensures CreateFrom(providers, key, kwargs) == Success(providers[key](kwargs))
    {
    }

    /** `choices`: a copy of the dictionary. A map is a value, so changing the
        copy cannot reach the registry. */
    method Choices() returns (c: map<string, Kwargs -> P>)
      ensures c == providers
    {
      c := providers;
    }
  }

  /** After `register(n, f)`, `create(m, **kwargs)` calls `f(**kwargs)` for
      every spelling `m` of `n`. */
  lemma CreateAfterRegister<P>(providers: map<string, Kwargs -> P>, n: string, f: Kwargs -> P, m: string, kwargs: Kwargs)
    requires Lower(m) == Lower(n)
    ensures CreateFrom(providers[Lower(n) := f], m, kwargs) == Success(f(kwargs))
  {
  }

  /** A second registration of the same name, in any spelling, replaces the first. */
  lemma RegisterReplaces<P>(providers: map<string, Kwargs -> P>, n: string, f: Kwargs -> P, n': string, g: Kwargs -> P, kwargs: Kwargs)
    requires Lower(n') == Lower(n)
    ensures CreateFrom(providers[Lower(n) := f][Lower(n') := g], n, kwargs) == Success(g(kwargs))
    ensures providers[Lower(n) := f][Lower(n') := g].Keys == providers.Keys + {Lower(n)}
  {
  }

  /** Registering one name leaves every other name as it was. */
  lemma RegisterLeavesOthers<P>(providers: map<string, Kwargs -> P>, n: string, f: Kwargs -> P, m: string, kwargs: Kwargs)
    requires Lower(m) != Lower(n)
    ensures CreateFrom(providers[Lower(n) := f], m, kwargs).Success? <==> CreateFrom(providers, m, kwargs).Success?
    ensures CreateFrom(providers, m, kwargs).Success? ==>
              CreateFrom(providers[Lower(n) := f], m, kwargs) == CreateFrom(providers, m, kwargs)
  {
  }

  /** An empty registry knows no provider and says `<none>`. */
  lemma EmptyRegistryFails<P>(name: string, kwargs: Kwargs)
    ensures CreateFrom<P>(map[], name, kwargs)
            == Failure("Unknown provider '" + name + "'. Available: " + NoneAvailable)
  {
    assert SortedSet({}) == [];
  }

  /** An unknown name is reported with the registered names in sorted order. */
  lemma UnknownListsSortedNames<P>(providers: map<string, Kwargs -> P>, name: string, kwargs: Kwargs)
    requires Lower(name) !in providers
    requires exists key :: key in providers && key != ""
    ensures var available := SortedSet(providers.Keys);
            && CreateFrom(providers, name, kwargs)
               == Failure("Unknown provider '" + name + "'. Available: " + Join(available, ", "))
            && StrictlySorted(available)
            && forall key :: key in available <==> key in providers
  {
    var available := SortedSet(providers.Keys);
    var key :| key in providers && key != "";
    assert key in available;
    JoinNonEmpty(available, ", ", key);
  }

  lemma {:induction false} JoinNonEmpty(parts: seq<string>, sep: string, x: string)
    requires x in parts && x != ""
    ensures Join(parts, sep) != ""
    decreases |parts|
  {
    if parts[0] != x {
      assert x in parts[1..];
      JoinNonEmpty(parts[1..], sep, x);
    }
  }

  /** A fresh registry with one factory registered finds it under every
      spelling of its name, as the CLI's registry does for `openai`. */
  method RegisterThenCreate<P>(factory: Kwargs -> P, key: string, name: string, kwargs: Kwargs)
    returns (created: Result<P, string>)
    requires Lower(name) == Lower(key)
    ensures created == Success(factory(kwargs))
  {
    var registry := new ProviderRegistry<P>();
    registry.Register(key, factory);
    created := registry.Create(name, kwargs);
  }
}
