/**
 * The in-memory repository (src/repos.rs): `MemoryStore` keeps its items in
 * an append-only vector and answers lookups by scanning it front to back.
 */
module Repos {
  import opened Wrappers

  /** `std::io::Error` as the store raises it: kind NotFound with a message. */
  datatype Error = NotFound(message: string)

  datatype Result<T> = Ok(value: T) | Err(error: Error)

  const NotFoundError: Error := NotFound("Not found")

  /** `i` is the position of the first element of `xs` that satisfies `p`. */
  ghost predicate IsFirstMatch<T>(xs: seq<T>, p: T -> bool, i: nat)
  {
    i < |xs| && p(xs[i]) && forall j :: 0 <= j < i ==> !p(xs[j])
  }

  /** `Iterator::find` over a slice, answering with the position found. */
  function FindFirst<T>(xs: seq<T>, p: T -> bool): (r: Option<nat>)
    ensures r.Some? ==> IsFirstMatch(xs, p, r.value)
    ensures r.None? ==> forall i :: 0 <= i < |xs| ==> !p(xs[i])
  {
    if |xs| == 0 then None
    else if p(xs[0]) then Some(0)
    else match FindFirst(xs[1..], p)
      case None => None
      case Some(i) => Some(i + 1)
  }

  /**
   * Appending an element never changes an earlier first match; it can only
   * supply one where there was none.
   */
  lemma {:induction false} FindFirstAppend<T>(xs: seq<T>, x: T, p: T -> bool)
    ensures FindFirst(xs + [x], p) ==
              if FindFirst(xs, p).Some? then FindFirst(xs, p)
              else if p(x) then Some(|xs|)
              else None
  {
    if |xs| == 0 {
      assert xs + [x] == [x];
    } else {
      assert (xs + [x])[1..] == xs[1..] + [x];
      FindFirstAppend(xs[1..], x, p);
    }
  }

  /** The test `find` applies in `get_by_id`: `p.get_id().eq(&Some(&id))`. */
  function HasId<T>(getId: T -> Option<string>, id: string): T -> bool
  {
    x => getId(x) == Some(id)
  }

  /**
   * `MemoryStore<T>`; `getId` is the item type's `UniqueId::get_id`, which may
   * answer `None` (such an item is never found by id).
   */
  class MemoryStore<T> {
    var cache: seq<T>
    const getId: T -> Option<string>

    /** `MemoryStore::new`: an empty cache. */
    constructor (getId: T -> Option<string>)
      ensures cache == [] && this.getId == getId
    {
      cache := [];
      this.getId := getId;
    }

    /**
     * `get_by_id`: the first cached item whose id is `id`, or the NotFound
     * error when there is none.
     */
    function GetById(id: string): (r: Result<T>)
      reads this
      ensures r.Ok? <==> exists i :: 0 <= i < |cache| && getId(cache[i]) == Some(id)
      ensures r.Ok? ==> exists i: nat :: IsFirstMatch(cache, HasId(getId, id), i) && cache[i] == r.value
      ensures r.Err? ==> r.error == NotFoundError
    {
      match FindFirst(cache, HasId(getId, id))
      case Some(i) => Ok(cache[i])
      case None => Err(NotFoundError)
    }

    /** `list`: a copy of the whole cache, in insertion order. */
    function List(): (r: Result<seq<T>>)
      reads this
      ensures r.Ok? && r.value == cache
    {
      Ok(cache)
    }

    /**
     * `insert`: appends without looking for an item with the same id, so a
     * later item with a duplicate id stays hidden behind the earlier one.
     */
    method Insert(item: T) returns (r: Result<T>)
      modifies this`cache
      ensures cache == old(cache) + [item]
      ensures r == Ok(item)
      ensures forall id :: old(GetById(id)).Ok? ==> GetById(id) == old(GetById(id))
      ensures getId(item).Some? ==> GetById(getId(item).value).Ok?
    {
      ghost var before := cache;
      cache := cache + [item];
      forall id | FindFirst(before, HasId(getId, id)).Some?
        ensures FindFirst(cache, HasId(getId, id)) == FindFirst(before, HasId(getId, id))
      {
        FindFirstAppend(before, item, HasId(getId, id));
      }
      if getId(item).Some? {
        FindFirstAppend(before, item, HasId(getId, getId(item).value));
      }
      r := Ok(item);
    }
  }
}
