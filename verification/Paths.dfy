/** Where a finding stands in a tree: the keys and indexes that lead to it. */
module Paths {
  import opened Collections

  datatype Step = Key(key: string) | Index(index: nat)

  datatype Placed<T> = Placed(path: seq<Step>, what: T)

  /** The same finding seen from one step further up. */
  function Under<T>(step: Step): Placed<T> -> Placed<T> {
    (p: Placed<T>) => Placed([step] + p.path, p.what)
  }

  /** The same finding seen from the root, for a tree that stands at `path`. */
  function At<T>(path: seq<Step>): Placed<T> -> Placed<T> {
    (p: Placed<T>) => Placed(path + p.path, p.what)
  }

  lemma AtUnder<T>(found: seq<Placed<T>>, path: seq<Step>, step: Step)
    ensures Map(Map(found, Under(step)), At(path)) == Map(found, At(path + [step]))
  {
    forall i | 0 <= i < |found| ensures At<T>(path)(Under<T>(step)(found[i])) == At<T>(path + [step])(found[i]) {
      assert path + ([step] + found[i].path) == (path + [step]) + found[i].path;
    }
  }

  lemma AtRoot<T>(found: seq<Placed<T>>)
    ensures Map(found, At([])) == found
  {
    assert forall i :: 0 <= i < |found| ==> At<T>([])(found[i]) == found[i];
  }
}
