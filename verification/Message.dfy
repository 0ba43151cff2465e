/**
 * Typed messages: from a value of a listed type to an untyped body with a type id, and back
 * through `cast` or through a visitor's table of functors. A value is represented by its bytes.
 */
module Message {
  import opened Wrappers
  import opened Bytes
  import opened Tuple

  /** `Header::typeId` is a `std::uint16_t`. */
  const ID_RANGE := 0x1_0000

  datatype Message = Message(typeId: nat, body: Block)

  /** Lists whose every type has an id of its own. */
  ghost predicate TagList<T>(tags: seq<T>) {
    DuplicateFree(tags) && |tags| <= ID_RANGE
  }

  function Make<T(==)>(tags: seq<T>, t: T, body: Block): Message
    requires ContainsType(tags, t)
  {
    Message(Index(tags, t) % ID_RANGE, body)
  }

  function Cast<T(==)>(tags: seq<T>, m: Message, u: T): Option<Block>
    requires ContainsType(tags, u)
  {
    if m.typeId == Index(tags, u) then Some(m.body) else None
  }

  lemma IdIsIndex<T>(tags: seq<T>, t: T)
    requires TagList(tags) && ContainsType(tags, t)
    ensures Index(tags, t) % ID_RANGE == Index(tags, t) < |tags|
  {
    IndexIsFirst(tags, t);
  }

  /** `cast` succeeds exactly for the type the message was made from, and returns its bytes. */
  lemma CastIff<T>(tags: seq<T>, t: T, u: T, body: Block)
    requires TagList(tags) && ContainsType(tags, t) && ContainsType(tags, u)
    ensures Cast(tags, Make(tags, t, body), u) == if u == t then Some(body) else None
  {
    IdIsIndex(tags, t);
    IndexInjective(tags, t, u);
  }

  // ---------------------------------------------------------------------------------------
  // Visitors
  // ---------------------------------------------------------------------------------------

  /** A functor together with its first argument's type. */
  datatype Functor<T, F> = Functor(argument: T, callable: F)

  datatype Visit<F, E> = Called(callable: F, body: Block, remote: E) | NoFunction | Undefined

  /** The functor that was added last for a type. */
  function LastFor<T(==), F>(added: seq<Functor<T, F>>, t: T): Option<F> {
    if added == [] then None
    else if added[|added| - 1].argument == t then Some(added[|added| - 1].callable)
    else LastFor(added[..|added| - 1], t)
  }

  ghost predicate AllListed<T, F>(tags: seq<T>, added: seq<Functor<T, F>>) {
    forall i :: 0 <= i < |added| ==> ContainsType(tags, added[i].argument)
  }

  function Look<F, E>(table: seq<Option<F>>, m: Message, remote: E): Visit<F, E> {
    if m.typeId >= |table| then Undefined
    else
      match table[m.typeId]
      case None => NoFunction
      case Some(f) => Called(f, m.body, remote)
  }

  /** The table holds, for every listed type, the functor added last for it. */
  ghost predicate Serves<T, F>(tags: seq<T>, table: seq<Option<F>>, added: seq<Functor<T, F>>) {
    && |table| == |tags|
    && forall t :: t in tags && ContainsType(tags, t) && Index(tags, t) < |table| ==>
         table[Index(tags, t)] == LastFor(added, t)
  }

  lemma EmptyServes<T, F>(tags: seq<T>)
    ensures Serves(tags, seq<Option<F>>(|tags|, _ => None), [])
  {
  }

  lemma AddedServes<T, F>(tags: seq<T>, table: seq<Option<F>>, added: seq<Functor<T, F>>, f: Functor<T, F>)
    requires Serves(tags, table, added) && ContainsType(tags, f.argument) && Index(tags, f.argument) < |tags|
    ensures Serves(tags, table[Index(tags, f.argument) := Some(f.callable)], added + [f])
  {
    assert (added + [f])[..|added|] == added;
    forall t | t in tags && ContainsType(tags, t) && Index(tags, t) < |table|
      ensures table[Index(tags, f.argument) := Some(f.callable)][Index(tags, t)] == LastFor(added + [f], t)
    {
      IndexInjective(tags, t, f.argument);
    }
  }

  class Visitor<T(==), F, E(0)> {
    const tags: seq<T>
    const functions: array<Option<F>>
    var remote: E

    constructor (tags: seq<T>)
      ensures this.tags == tags && fresh(functions)
      ensures functions[..] == seq(|tags|, _ => None)
    {
      this.tags := tags;
      functions := new Option<F>[|tags|](_ => None);
      remote := *;
    }

    method Add(f: Functor<T, F>)
      requires functions.Length == |tags| <= ID_RANGE && ContainsType(tags, f.argument)
      modifies functions
      ensures Index(tags, f.argument) < |tags|
      ensures functions[..] == old(functions[..])[Index(tags, f.argument) := Some(f.callable)]
    {
      IndexIsFirst(tags, f.argument);
      var id := Index(tags, f.argument) % ID_RANGE;
      functions[id] := Some(f.callable);
    }

    /** `make_visitor`: adds the functors from left to right. */
    method AddAll(fs: seq<Functor<T, F>>)
      requires functions.Length == |tags| && TagList(tags) && AllListed(tags, fs)
      requires functions[..] == seq(|tags|, _ => None)
      modifies functions
      ensures Serves(tags, functions[..], fs)
    {
      EmptyServes<T, F>(tags);
      for i := 0 to |fs|
        invariant Serves(tags, functions[..], fs[..i])
      {
        ghost var before := functions[..];
        Add(fs[i]);
        AddedServes(tags, before, fs[..i], fs[i]);
        assert fs[..i + 1] == fs[..i] + [fs[i]];
      }
      assert fs[..|fs|] == fs;
    }

    method VisitMessage(m: Message) returns (r: Visit<F, E>)
      ensures r == Look(functions[..], m, remote)
      ensures m.typeId >= functions.Length ==> r == Undefined
      ensures m.typeId < functions.Length ==>
                r == match functions[m.typeId] case None => NoFunction case Some(f) => Called(f, m.body, remote)
    {
      if m.typeId >= functions.Length {
        return Undefined;
      }
      if functions[m.typeId].Some? {
        r := Called(functions[m.typeId].value, m.body, remote);
      } else {
        r := NoFunction;
      }
    }
  }

  /**
   * Typed dispatch: visiting a message made from a listed type calls the functor added last for
   * that type, with the bytes it was made from, and reports a missing functor otherwise.
   */
  lemma DispatchByType<T, F, E>(tags: seq<T>, table: seq<Option<F>>, added: seq<Functor<T, F>>, t: T, body: Block,
                                remote: E)
    requires TagList(tags) && ContainsType(tags, t) && Serves(tags, table, added)
    ensures Look(table, Make(tags, t, body), remote)
         == match LastFor(added, t) case Some(f) => Called(f, body, remote) case None => NoFunction
  {
    IdIsIndex(tags, t);
    ContainsIff(tags, t);
  }
}
