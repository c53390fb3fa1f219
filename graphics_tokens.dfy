/**
 * The ownership tokens of the graphics data factory: GraphicsDataToken owns a batch of
 * factory-created resources, GraphicsBufferPoolToken a pool of dynamic buffers. Each token
 * holds a factory pointer and a resource pointer; it releases the resource through the
 * factory at most once, moves transfer the pair and null the source, and the destructor
 * releases whatever is still owned. The vertex-semantic flag values are modelled too.
 *
 * The factory is an abstract interface; the calls a token makes on it are recorded in the
 * factory's ghost log, and what a factory answers is a parameter.
 */
module GraphicsTokens {
  import opened Wrappers

  // ---------------------------------------------------------------------------
  // Vertex semantics

  /** The base VertexSemantic values None .. ModelView. */
  const BaseSemantics: seq<bv32> := [0, 1, 2, 3, 4, 5, 6, 7, 8, 9, 10]
  const SemanticMask: bv32 := 0xf
  const Instanced: bv32 := 0x10

  /** Every base semantic lies inside the mask, the instanced flag lies outside it, so a
      semantic combined with the flag gives back its base under the mask and still tests
      as instanced. */
  lemma SemanticsFitMask(i: nat)
    requires i < |BaseSemantics|
    ensures var v := BaseSemantics[i];
      && v & SemanticMask == v
      && v & Instanced == 0
      && (v | Instanced) & SemanticMask == v
      && (v | Instanced) & Instanced == Instanced
  {
    var v := BaseSemantics[i];
    assert v <= 10;
  }

  /** The mask and the flag share no bit. */
  lemma MaskDisjointFromInstanced()
    ensures SemanticMask & Instanced == 0
  {
  }

  // ---------------------------------------------------------------------------
  // The two pointer fields of a token, as values

  /** A token's factory pointer and resource pointer; None is the null pointer. */
  datatype Slot<F, R> = Slot(factory: Option<F>, res: Option<R>)

  /** operator bool: the token owns a resource when both pointers are set. */
  predicate Owning<F, R>(s: Slot<F, R>)
  {
    s.factory.Some? && s.res.Some?
  }

  /** A default-constructed or released token. */
  function EmptySlot<F, R>(): Slot<F, R>
  {
    Slot(None, None)
  }

  /** One destroyData / destroyPool call: the factory asked and the resource released. */
  datatype Release<F, R> = Release(factory: F, res: R)

  /** A token's new pointers and the releases made on the way. */
  datatype Step<F, R> = Step(slot: Slot<F, R>, released: seq<Release<F, R>>)

  /** doDestroy */
  function DestroyStep<F, R>(s: Slot<F, R>): (r: Step<F, R>)
    ensures !Owning(r.slot)
    ensures Owning(s) <==> r.released != []
  {
    if Owning(s) then Step(EmptySlot(), [Release(s.factory.value, s.res.value)])
    else Step(s, [])
  }

  /** doDestroy releases exactly the owned resource, through its own factory, and leaves
      the token owning nothing; a token that owns nothing is left as it was. */
  lemma DestroyReleasesOwned<F, R>(s: Slot<F, R>)
    ensures var st := DestroyStep(s);
      && !Owning(st.slot)
      && (Owning(s) <==> |st.released| == 1)
      && (Owning(s) ==> st.released[0] == Release(s.factory.value, s.res.value) && st.slot == EmptySlot())
      && (!Owning(s) ==> st.slot == s && st.released == [])
  {
  }

  /** A second doDestroy does nothing. */
  lemma DestroyIdempotent<F, R>(s: Slot<F, R>)
    ensures var once := DestroyStep(s).slot; DestroyStep(once) == Step(once, [])
  {
  }

  // ---------------------------------------------------------------------------
  // A system of tokens

  type TokenId = nat

  /** The live tokens and every release made so far, in order. */
  datatype System<F, R> = System(tokens: map<TokenId, Slot<F, R>>, released: seq<Release<F, R>>)

  /** What a program does with tokens. */
  datatype Op<F, R> =
    | NewEmpty(t: TokenId)                      // default constructor
    | Wrap(t: TokenId, f: F, r: R)              // a factory hands out a fresh resource
    | MoveNew(dst: TokenId, src: TokenId)       // move constructor
    | MoveAssign(dst: TokenId, src: TokenId)    // move assignment, `dst == src` included
    | Destroy(t: TokenId)                       // doDestroy
    | Drop(t: TokenId)                          // destructor

  /** The resources released so far. */
  function ReleasedRes<F, R>(rel: seq<Release<F, R>>): set<R>
  {
    set i | 0 <= i < |rel| :: rel[i].res
  }

  /** The resources the live tokens point to. */
  function HeldRes<F, R>(tokens: map<TokenId, Slot<F, R>>): set<R>
  {
    set t | t in tokens && tokens[t].res.Some? :: tokens[t].res.value
  }

  /** Which operations a program can perform: tokens are named before use; a new token
      takes an unused name; a factory hands out a resource nobody holds or has released. */
  predicate Enabled<F, R(==)>(sys: System<F, R>, op: Op<F, R>)
  {
    match op
    case NewEmpty(t) => t !in sys.tokens
    case Wrap(t, f, r) => t !in sys.tokens && r !in ReleasedRes(sys.released) && r !in HeldRes(sys.tokens)
    case MoveNew(dst, src) => src in sys.tokens && dst !in sys.tokens
    case MoveAssign(dst, src) => dst in sys.tokens && src in sys.tokens
    case Destroy(t) => t in sys.tokens
    case Drop(t) => t in sys.tokens
  }

  /** One operation. Move assignment releases the target's old resource before taking the
      source's pair; moved-from tokens are left null. */
  function Apply<F, R(==)>(sys: System<F, R>, op: Op<F, R>): (r: System<F, R>)
    requires Enabled(sys, op)
    ensures sys.released <= r.released
    ensures |r.released| <= |sys.released| + 1
  {
    match op
    case NewEmpty(t) => System(sys.tokens[t := EmptySlot()], sys.released)
    case Wrap(t, f, r) => System(sys.tokens[t := Slot(Some(f), Some(r))], sys.released)
    case MoveNew(dst, src) => System(sys.tokens[dst := sys.tokens[src]][src := EmptySlot()], sys.released)
    case MoveAssign(dst, src) =>
      var st := DestroyStep(sys.tokens[dst]);
      if dst == src then System(sys.tokens[dst := EmptySlot()], sys.released + st.released)
      else System(sys.tokens[dst := sys.tokens[src]][src := EmptySlot()], sys.released + st.released)
    case Destroy(t) =>
      var st := DestroyStep(sys.tokens[t]);
      System(sys.tokens[t := st.slot], sys.released + st.released)
    case Drop(t) =>
      var st := DestroyStep(sys.tokens[t]);
      System(sys.tokens - {t}, sys.released + st.released)
  }

  /** No resource is released twice, no two tokens point to the same resource, and no
      token points to a released resource. */
  ghost predicate Inv<F, R>(sys: System<F, R>)
  {
    && (forall i, j | 0 <= i < j < |sys.released| :: sys.released[i].res != sys.released[j].res)
    && (forall a, b | a in sys.tokens && b in sys.tokens && a != b && sys.tokens[a].res.Some? ::
          sys.tokens[a].res != sys.tokens[b].res)
    && (forall a | a in sys.tokens && sys.tokens[a].res.Some? :: sys.tokens[a].res.value !in ReleasedRes(sys.released))
  }

  /** Releasing the resource of a token that held it keeps Inv once the token no longer
      points to it. */
  lemma ReleaseKeepsDistinct<F, R>(sys: System<F, R>, t: TokenId)
    requires Inv(sys) && t in sys.tokens
    ensures var rel := sys.released + DestroyStep(sys.tokens[t]).released;
      && (forall i, j | 0 <= i < j < |rel| :: rel[i].res != rel[j].res)
      && ReleasedRes(rel) == ReleasedRes(sys.released) + (if Owning(sys.tokens[t]) then {sys.tokens[t].res.value} else {})
  {
    var st := DestroyStep(sys.tokens[t]);
    var rel := sys.released + st.released;
    if Owning(sys.tokens[t]) {
      var r := sys.tokens[t].res.value;
      assert r !in ReleasedRes(sys.released);
      forall i | 0 <= i < |sys.released|
        ensures sys.released[i].res != r
      {
        assert sys.released[i].res in ReleasedRes(sys.released);
      }
      assert rel[|sys.released|].res == r;
      forall x | x in ReleasedRes(rel)
        ensures x in ReleasedRes(sys.released) + {r}
      {
        var i :| 0 <= i < |rel| && rel[i].res == x;
        if i < |sys.released| {
          assert sys.released[i] == rel[i];
        }
      }
      forall x | x in ReleasedRes(sys.released) + {r}
        ensures x in ReleasedRes(rel)
      {
        if x == r {
          assert rel[|sys.released|].res == r;
        } else {
          var i :| 0 <= i < |sys.released| && sys.released[i].res == x;
          assert rel[i] == sys.released[i];
        }
      }
    } else {
      assert rel == sys.released;
    }
  }

  lemma WrapKeepsInv<F, R>(sys: System<F, R>, t: TokenId, f: F, r: R)
    requires Inv(sys) && Enabled(sys, Wrap(t, f, r))
    ensures Inv(Apply(sys, Wrap(t, f, r)))
  {
    forall a | a in sys.tokens && sys.tokens[a].res.Some?
      ensures sys.tokens[a].res != Some(r)
    {
      assert sys.tokens[a].res.value in HeldRes(sys.tokens);
    }
  }

  lemma MoveNewKeepsInv<F, R>(sys: System<F, R>, dst: TokenId, src: TokenId)
    requires Inv(sys) && Enabled(sys, MoveNew(dst, src))
    ensures Inv(Apply(sys, MoveNew(dst, src)))
  {
  }

  lemma MoveAssignKeepsInv<F, R>(sys: System<F, R>, dst: TokenId, src: TokenId)
    requires Inv(sys) && Enabled(sys, MoveAssign(dst, src))
    ensures Inv(Apply(sys, MoveAssign(dst, src)))
  {
    ReleaseKeepsDistinct(sys, dst);
  }

  lemma DestroyKeepsInv<F, R>(sys: System<F, R>, t: TokenId)
    requires Inv(sys) && Enabled(sys, Destroy(t))
    ensures Inv(Apply(sys, Destroy(t)))
  {
    ReleaseKeepsDistinct(sys, t);
  }

  lemma DropKeepsInv<F, R>(sys: System<F, R>, t: TokenId)
    requires Inv(sys) && Enabled(sys, Drop(t))
    ensures Inv(Apply(sys, Drop(t)))
  {
    ReleaseKeepsDistinct(sys, t);
  }

  /** Every operation keeps Inv. */
  lemma ApplyKeepsInv<F, R>(sys: System<F, R>, op: Op<F, R>)
    requires Inv(sys) && Enabled(sys, op)
    ensures Inv(Apply(sys, op))
  {
    match op
    case NewEmpty(t) =>
    case Wrap(t, f, r) => WrapKeepsInv(sys, t, f, r);
    case MoveNew(dst, src) => MoveNewKeepsInv(sys, dst, src);
    case MoveAssign(dst, src) => MoveAssignKeepsInv(sys, dst, src);
    case Destroy(t) => DestroyKeepsInv(sys, t);
    case Drop(t) => DropKeepsInv(sys, t);
  }

  /** A run of operations, None as soon as one is not possible. */
  function Run<F, R(==)>(sys: System<F, R>, ops: seq<Op<F, R>>): (r: Option<System<F, R>>)
    ensures r.Some? ==> sys.released <= r.value.released && |r.value.released| <= |sys.released| + |ops|
    decreases |ops|
  {
    if ops == [] then Some(sys)
    else if !Enabled(sys, ops[0]) then None
    else Run(Apply(sys, ops[0]), ops[1..])
  }

  lemma {:induction false} RunKeepsInv<F, R>(sys: System<F, R>, ops: seq<Op<F, R>>)
    requires Inv(sys) && Run(sys, ops).Some?
    ensures Inv(Run(sys, ops).value)
    decreases |ops|
  {
    if ops != [] {
      ApplyKeepsInv(sys, ops[0]);
      RunKeepsInv(Apply(sys, ops[0]), ops[1..]);
    }
  }

  /** Whatever a program does with tokens, starting from none, every resource is released
      at most once, across moves, move assignments, explicit releases and destruction. */
  lemma ReleasedAtMostOnce<F, R>(ops: seq<Op<F, R>>)
    requires Run(System(map[], []), ops).Some?
    ensures var rel := Run(System(map[], []), ops).value.released;
      forall i, j | 0 <= i < j < |rel| :: rel[i].res != rel[j].res
  {
    RunKeepsInv(System(map[], []), ops);
  }

  /** A move hands the source's pair over, nulls the source and releases nothing. */
  lemma MoveTransfers<F, R>(sys: System<F, R>, dst: TokenId, src: TokenId)
    requires Enabled(sys, MoveNew(dst, src))
    ensures var next := Apply(sys, MoveNew(dst, src));
      && next.tokens[dst] == sys.tokens[src] && next.tokens[src] == EmptySlot()
      && next.released == sys.released
  {
  }

  /** Move assignment between two tokens releases exactly what the target owned, then the
      target holds the source's pair and the source is null; a self-move releases what the
      token owned and leaves it null. */
  lemma MoveAssignReleasesTarget<F, R>(sys: System<F, R>, dst: TokenId, src: TokenId)
    requires Enabled(sys, MoveAssign(dst, src))
    ensures var next := Apply(sys, MoveAssign(dst, src));
      var d := sys.tokens[dst];
      && next.released == sys.released + (if Owning(d) then [Release(d.factory.value, d.res.value)] else [])
      && (dst != src ==> next.tokens[dst] == sys.tokens[src] && next.tokens[src] == EmptySlot())
      && (dst == src ==> next.tokens[dst] == EmptySlot())
  {
  }

  // ---------------------------------------------------------------------------
  // The token classes

  /** Supported buffer uses. */
  datatype BufferUse = Null | Vertex | Index | Uniform

  /** IGraphicsData: a batch of resources, known only by identity. */
  class GraphicsData {
    constructor () {}
  }

  /** IGraphicsBufferPool: a pool of dynamic buffers, known only by identity. */
  class BufferPool {
    constructor () {}
  }

  /** IGraphicsBufferD: a dynamic buffer, known only by identity. */
  class PoolBuffer {
    constructor () {}
  }

  /** A call a token makes on its factory. */
  datatype FactoryCall =
    | DestroyData(data: GraphicsData)
    | DestroyPool(pool: BufferPool)
    | NewPoolBuffer(inPool: Option<BufferPool>, use: BufferUse, stride: nat, count: nat)
    | DeletePoolBuffer(fromPool: Option<BufferPool>, buf: Option<PoolBuffer>)

  /** IGraphicsDataFactory, seen from the tokens: the calls it has received. */
  class Factory {
    ghost var calls: seq<FactoryCall>

    constructor ()
      ensures calls == []
    {
      calls := [];
    }

    method Receive(call: FactoryCall)
      modifies this
      ensures calls == old(calls) + [call]
    {
      calls := calls + [call];
    }
  }

  /** The factory a token points to, as a frame. */
  function FactoryFrame(f: Option<Factory>): set<object>
  {
    if f.Some? then {f.value} else {}
  }

  /** GraphicsDataToken */
  class DataToken {
    var factory: Option<Factory>
    var data: Option<GraphicsData>

    ghost function Pointers(): Slot<Factory, GraphicsData>
      reads this
    {
      Slot(factory, data)
    }

    /** operator bool */
    function Owns(): (r: bool)
      reads this
      ensures r == Owning(Pointers())
    {
      factory.Some? && data.Some?
    }

    /** The default constructor: both pointers null, so nothing is owned. */
    constructor ()
      ensures Pointers() == EmptySlot() && !Owns()
    {
      factory, data := None, None;
    }

    /** The private constructor the platform factories use to hand out a batch. */
    constructor Wrap(factory: Option<Factory>, data: Option<GraphicsData>)
      ensures Pointers() == Slot(factory, data)
    {
      this.factory, this.data := factory, data;
    }

    /** The move constructor: the pair moves over and the source is nulled. */
    constructor Move(other: DataToken)
      modifies other
      ensures Pointers() == old(other.Pointers()) && other.Pointers() == EmptySlot()
      ensures Owns() == old(other.Owns()) && !other.Owns()
    {
      factory := other.factory;
      data := other.data;
      new;
      other.factory := None;
      other.data := None;
    }

    /** doDestroy, which the destructor also runs: an owned batch is released once through
        its factory and the token is nulled; otherwise nothing happens. */
    method DoDestroy()
      modifies this, FactoryFrame(factory)
      ensures Pointers() == DestroyStep(old(Pointers())).slot && !Owns()
      ensures old(Owns()) ==> old(factory.value).calls == old(factory.value.calls) + [DestroyData(old(data.value))]
      ensures !old(Owns()) && old(factory).Some? ==> old(factory.value).calls == old(factory.value.calls)
    {
      if factory.Some? && data.Some? {
        factory.value.Receive(DestroyData(data.value));
        factory := None;
        data := None;
      }
    }

    /** Move assignment: the batch this token owned is released first, then the pair
        moves over. Assigning a token to itself releases its batch and leaves it null. */
    method MoveAssign(other: DataToken)
      modifies this, other, FactoryFrame(factory)
      ensures other != this ==> Pointers() == old(other.Pointers()) && other.Pointers() == EmptySlot()
      ensures other == this ==> Pointers() == EmptySlot()
      ensures old(Owns()) ==> old(factory.value).calls == old(factory.value.calls) + [DestroyData(old(data.value))]
      ensures !old(Owns()) && old(factory).Some? ==> old(factory.value).calls == old(factory.value.calls)
    {
      DoDestroy();
      factory := other.factory;
      other.factory := None;
      data := other.data;
      other.data := None;
    }
  }

  /** GraphicsBufferPoolToken */
  class PoolToken {
    var factory: Option<Factory>
    var pool: Option<BufferPool>

    ghost function Pointers(): Slot<Factory, BufferPool>
      reads this
    {
      Slot(factory, pool)
    }

    /** operator bool */
    function Owns(): (r: bool)
      reads this
      ensures r == Owning(Pointers())
    {
      factory.Some? && pool.Some?
    }

    constructor ()
      ensures Pointers() == EmptySlot() && !Owns()
    {
      factory, pool := None, None;
    }

    constructor Wrap(factory: Option<Factory>, pool: Option<BufferPool>)
      ensures Pointers() == Slot(factory, pool)
    {
      this.factory, this.pool := factory, pool;
    }

    constructor Move(other: PoolToken)
      modifies other
      ensures Pointers() == old(other.Pointers()) && other.Pointers() == EmptySlot()
      ensures Owns() == old(other.Owns()) && !other.Owns()
    {
      factory := other.factory;
      pool := other.pool;
      new;
      other.factory := None;
      other.pool := None;
    }

    /** doDestroy, which the destructor also runs. */
    method DoDestroy()
      modifies this, FactoryFrame(factory)
      ensures Pointers() == DestroyStep(old(Pointers())).slot && !Owns()
      ensures old(Owns()) ==> old(factory.value).calls == old(factory.value.calls) + [DestroyPool(old(pool.value))]
      ensures !old(Owns()) && old(factory).Some? ==> old(factory.value).calls == old(factory.value.calls)
    {
      if factory.Some? && pool.Some? {
        factory.value.Receive(DestroyPool(pool.value));
        factory := None;
        pool := None;
      }
    }

    method MoveAssign(other: PoolToken)
      modifies this, other, FactoryFrame(factory)
      ensures other != this ==> Pointers() == old(other.Pointers()) && other.Pointers() == EmptySlot()
      ensures other == this ==> Pointers() == EmptySlot()
      ensures old(Owns()) ==> old(factory.value).calls == old(factory.value.calls) + [DestroyPool(old(pool.value))]
      ensures !old(Owns()) && old(factory).Some? ==> old(factory.value).calls == old(factory.value.calls)
    {
      DoDestroy();
      factory := other.factory;
      other.factory := None;
      pool := other.pool;
      other.pool := None;
    }

    /** newPoolBuffer: without a factory there is no buffer; otherwise the request goes to
        the factory with the token's pool, null or not, and `reply` is its answer. */
    method NewPoolBuffer(use: BufferUse, stride: nat, count: nat, reply: Option<PoolBuffer>)
      returns (buf: Option<PoolBuffer>)
      modifies FactoryFrame(factory)
      ensures factory.None? ==> buf.None?
      ensures factory.Some? ==>
        buf == reply && factory.value.calls == old(factory.value.calls) + [FactoryCall.NewPoolBuffer(pool, use, stride, count)]
    {
      if factory.Some? {
        factory.value.Receive(FactoryCall.NewPoolBuffer(pool, use, stride, count));
        return reply;
      }
      return None;
    }

    /** deletePoolBuffer: forwarded to the factory with the token's pool when there is a
        factory, dropped otherwise. */
    method DeletePoolBuffer(buf: Option<PoolBuffer>)
      modifies FactoryFrame(factory)
      ensures factory.Some? ==> factory.value.calls == old(factory.value.calls) + [FactoryCall.DeletePoolBuffer(pool, buf)]
    {
      if factory.Some? {
        factory.value.Receive(FactoryCall.DeletePoolBuffer(pool, buf));
      }
    }
  }
}
