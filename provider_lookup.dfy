/** `ProviderRegistry` of the `src/gitsoviet/` Python package
    (src/gitsoviet/providers.py): a read-only lookup of an image provider by
    lower-cased name in a dictionary given at construction. */
module ProviderLookup {
  import opened Wrappers
  import opened Text

  const NoneAvailable: string := "none"

  /** `Unknown provider '<name>'. Available: <sorted keys, or none>`. */
  function UnknownProvider(name: string, names: set<string>): string {
    var joined := Join(SortedSet(names), ", ");
    "Unknown provider '" + name + "'. Available: " + (if joined == "" then NoneAvailable else joined)
  }

  /** The dataclass: the dictionary is stored as given, keys and all. */
  datatype ProviderRegistry<P> = ProviderRegistry(providers: map<string, P>) {
    /** `get`: the provider under the lower-cased name, or the `ValueError`. */
    function Get(name: string): (r: Result<P, string>)
      ensures r.Success? <==> Lower(name) in providers
      ensures r.Success? ==> r.value == providers[Lower(name)]
      ensures r.Failure? ==> r.error == UnknownProvider(name, providers.Keys)
    {
      var key := Lower(name);
      if key in providers then Success(providers[key]) else Failure(UnknownProvider(name, providers.Keys))
    }
  }

  /** Keys are not lower-cased on construction, so a key with an upper-case
      letter is found by no name. */
  lemma UpperCaseKeyUnreachable<P>(registry: ProviderRegistry<P>, key: string, name: string)
    requires key in registry.providers && Lower(key) != key
    ensures Lower(name) != key
    ensures registry.Get(name).Success? ==> Lower(name) in registry.providers.Keys - {key}
  {
    LowerIdempotent(name);
  }

  /** Names that differ only in case find the same provider. */
  lemma GetIgnoresCase<P>(registry: ProviderRegistry<P>, a: string, b: string)
    requires Lower(a) == Lower(b)
    ensures registry.Get(a).Success? <==> registry.Get(b).Success?
    ensures registry.Get(a).Success? ==> registry.Get(a) == registry.Get(b)
  {
  }

  /** An empty registry finds nothing and says `none`. */
  lemma EmptyRegistryFails<P>(registry: ProviderRegistry<P>, name: string)
    requires registry.providers == map[]
    ensures registry.Get(name) == Failure("Unknown provider '" + name + "'. Available: " + NoneAvailable)
  {
    assert SortedSet({}) == [];
  }

  /** `default_registry`, with the OpenAI provider as a parameter. */
  function DefaultRegistry<P>(openai: P): (registry: ProviderRegistry<P>)
    ensures registry.providers.Keys == {"openai"}
    ensures registry.providers["openai"] == openai
  {
    ProviderRegistry(map["openai" := openai])
  }

  /** The default registry finds the OpenAI provider under any spelling of
      `openai` and nothing else. */
  lemma DefaultRegistryFindsOpenAi<P>(openai: P, name: string)
    ensures DefaultRegistry(openai).Get(name).Success? <==> Lower(name) == "openai"
    ensures Lower(name) == "openai" ==> DefaultRegistry(openai).Get(name) == Success(openai)
  {
  }
}
