/**
 * The parts of the Fetch API the Worker uses: a case-insensitive `Headers`
 * object that is copied and then mutated in place, and the bodies that are
 * passed along without being read.
 */
module Fetch {
  import opened Wrappers
  import opened Strings

  /** A map whose keys are header names in their lower-cased form. */
  predicate LowerKeys(m: map<string, string>)
  {
    forall k :: k in m ==> IsLower(k)
  }

  /** `headers.get(name)` on a header map: names match case-insensitively. */
  function Lookup(m: map<string, string>, name: string): (v: Option<string>)
    requires LowerKeys(m)
    ensures v.Some? <==> Lower(name) in m
    ensures v.Some? ==> v.value == m[Lower(name)]
    ensures IsLower(name) ==> v == if name in m then Some(m[name]) else None
  {
    LowerOfLower(name);
    if Lower(name) in m then Some(m[Lower(name)]) else None
  }

  /** Two names that differ only in letter case look up the same header. */
  lemma LookupIgnoresCase(m: map<string, string>, a: string, b: string)
    requires LowerKeys(m)
    requires Lower(a) == Lower(b)
    ensures Lookup(m, a) == Lookup(m, b)
  {
  }

  /** JavaScript truthiness of a possibly missing string: present and non-empty. */
  predicate Truthy(v: Option<string>)
  {
    v.Some? && v.value != ""
  }

  /** A request or response body: absent, or a stream known only by its identity. */
  datatype Body = NoBody | Stream(id: nat)

  /** A `Headers` object: one value per name, names stored lower-cased. */
  class Headers {
    var entries: map<string, string>

    ghost predicate Valid()
      reads this
    {
      LowerKeys(entries)
    }

    /** `new Headers(init)`: a copy of another header set. */
    constructor (init: map<string, string>)
      requires LowerKeys(init)
      ensures Valid() && entries == init
    {
      entries := init;
    }

    /** `headers.delete(name)`: the name is gone, every other entry stays. */
    method Delete(name: string)
      requires Valid()
      modifies this
      ensures Valid()
      ensures entries == old(entries) - {Lower(name)}
    {
      entries := entries - {Lower(name)};
    }

    /** `headers.set(name, value)`: the name now maps to `value`, replacing any earlier value. */
    method Set(name: string, value: string)
      requires Valid()
      modifies this
      ensures Valid()
      ensures entries == old(entries)[Lower(name) := value]
    {
      LowerIsLower(name);
      entries := entries[Lower(name) := value];
    }
  }
}
