/**
 * The base adapter (lib/dbAdapters/dbAdapter.js): an auto-numbered name with a
 * validated setter, and connect/disconnect that report success at once.
 */
module Adapter {
  import opened Common
  import opened Decimal

  const NamePrefix: string := "dbAdapter_"

  class DbAdapter {
    var name: string

    /** Bumps the module counter and takes `'dbAdapter_' + count` as the name. */
    constructor(counter: Counter)
      modifies counter
      ensures counter.count == old(counter.count) + 1
      ensures name == AutoName(NamePrefix, counter.count)
    {
      counter.count := counter.count + 1;
      name := AutoName(NamePrefix, counter.count);
    }

    /**
     * A non-string name is a TypeError and an empty one a ValueError, both
     * leaving the name as it was; any other string becomes the name.
     */
    method SetName(n: Name) returns (err: Option<Error>)
      modifies this
      ensures n.NonString? ==> err == Some(TypeError(RenameType(old(name))))
      ensures n.Str? && n.s == "" ==> err == Some(ValueError(RenameEmpty(old(name))))
      ensures err.None? <==> ValidName(n)
      ensures err.None? ==> GetName() == n.s
      ensures err.Some? ==> name == old(name)
    {
      if n.NonString? {
        return Some(TypeError(RenameType(name)));
      }
      if n.s == "" {
        return Some(ValueError(RenameEmpty(name)));
      }
      name := n.s;
      err := None;
    }

    function GetName(): string
      reads this
    {
      name
    }

    /** Calls back once with no error; nothing changes. */
    method Connect() returns (err: Option<Error>)
      ensures err == None
    {
      err := None;
    }

    /** Calls back once with no error; nothing changes. */
    method Disconnect() returns (err: Option<Error>)
      ensures err == None
    {
      err := None;
    }
  }

  /**
   * Adapters built one after another from the same counter get pairwise
   * distinct names: the counter only grows.
   */
  lemma AutoNamesPairwiseDistinct(counts: seq<nat>)
    requires forall i, j :: 0 <= i < j < |counts| ==> counts[i] < counts[j]
    ensures forall i, j :: 0 <= i < j < |counts| ==>
              AutoName(NamePrefix, counts[i]) != AutoName(NamePrefix, counts[j])
  {
    forall i, j | 0 <= i < j < |counts|
      ensures AutoName(NamePrefix, counts[i]) != AutoName(NamePrefix, counts[j])
    {
      AutoNamesDistinct(NamePrefix, counts[i], counts[j]);
    }
  }
}
