/** `fieldCache` (cache.go): the compiled contexts of a struct type, stored under
    the type's path. The concurrent map of the source is a plain map here. */
module Cache {
  import opened Wrappers
  import opened FieldContexts

  /** What `Get` answers for a path, given the stored entries: the contexts and
      true when the path was stored, else nothing (Go's nil) and false. */
  function Answer(backend: map<string, seq<FieldContext>>, path: string): (r: (seq<FieldContext>, bool))
    ensures r.1 <==> path in backend
    ensures r.1 ==> r.0 == backend[path]
    ensures !r.1 ==> r.0 == []
  {
    match Lookup(backend, path)
    case Some(fc) => (fc, true)
    case None => ([], false)
  }

  /** After storing `fc` under `p`, `p` answers `fc` (the last store wins), and every
      other path answers what it did before. */
  lemma AnswerAfterStore(backend: map<string, seq<FieldContext>>, p: string, fc: seq<FieldContext>, q: string)
    ensures Answer(backend[p := fc], q) == if q == p then (fc, true) else Answer(backend, q)
  {
  }

  /** A path never stored answers nil and false. */
  lemma AnswerNeverStored(p: string)
    ensures Answer(map[], p) == ([], false)
  {
  }

  class FieldCache {
    var backend: map<string, seq<FieldContext>>

    /** `&fieldCache{}`: nothing stored. */
    constructor ()
      ensures backend == map[]
    {
      backend := map[];
    }

    /** `Get`: the stored contexts of `path`, and whether there were any. */
    method Get(path: string) returns (fc: seq<FieldContext>, has: bool)
      ensures (fc, has) == Answer(backend, path)
    {
      has := path in backend;
      if has {
        return backend[path], true;
      }
      return [], false;
    }

    /** `Store`: sets the entry of `path`, leaving every other entry alone. */
    method Store(path: string, fc: seq<FieldContext>)
      modifies this
      ensures backend == old(backend)[path := fc]
    {
      backend := backend[path := fc];
    }
  }

  /** A store followed by a get on the same path gives back what was stored,
      even over an earlier store. */
  method StoreThenGet(c: FieldCache, path: string, first: seq<FieldContext>, second: seq<FieldContext>)
    returns (fc: seq<FieldContext>, has: bool)
    modifies c
    ensures fc == second && has
    ensures forall q | q != path :: Answer(c.backend, q) == Answer(old(c.backend), q)
  {
    c.Store(path, first);
    c.Store(path, second);
    fc, has := c.Get(path);
    forall q | q != path
      ensures Answer(c.backend, q) == Answer(old(c.backend), q)
    {
      AnswerAfterStore(old(c.backend)[path := first], path, second, q);
      AnswerAfterStore(old(c.backend), path, first, q);
    }
  }
}
