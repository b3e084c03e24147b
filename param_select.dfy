/**
 * Parameter selection: freezing every model parameter whose name is not in
 * the tunable dictionary, and splitting the tunable tensors into the two
 * optimizer groups (matrices, which get weight decay, and the rest).
 */
module ParamSelect {
  import opened Common

  /** One entry of `named_parameters()`: name, tensor, `requires_grad`. */
  datatype NamedParam = NamedParam(name: string, value: Tensor, requiresGrad: bool)

  /** One entry of the tunable dictionary returned by `model.build()`. */
  datatype Tunable = Tunable(name: string, value: Tensor)

  /** How a parameter's name becomes the key looked up among the tunable names. */
  datatype KeyRule =
    | AsNamed              // the name itself
    | StripModule          // `re.sub("^module\.", "", k)`: the DDP wrapper's prefix removed
    | Under(head: string)  // `f"{head}.{k}"`: the name qualified by its head

  const ModulePrefix: string := "module."

  /** Removes one leading "module.", if there is one. */
  function StripModulePrefix(name: string): (r: string)
    ensures ModulePrefix <= name ==> ModulePrefix + r == name
    ensures !(ModulePrefix <= name) ==> r == name
  {
    if ModulePrefix <= name then name[|ModulePrefix|..] else name
  }

  function Key(rule: KeyRule, name: string): string
  {
    match rule
    case AsNamed => name
    case StripModule => StripModulePrefix(name)
    case Under(head) => head + "." + name
  }

  /** The rule used by the data-parallel monitors: strip the prefix only under DDP. */
  function DdpRule(ddp: bool): KeyRule
  {
    if ddp then StripModule else AsNamed
  }

  /** The keys of the tunable dictionary. */
  function Names(ts: seq<Tunable>): (s: set<string>)
    ensures forall i | 0 <= i < |ts| :: ts[i].name in s
    ensures forall n | n in s :: exists i | 0 <= i < |ts| :: ts[i].name == n
  {
    set i | 0 <= i < |ts| :: ts[i].name
  }

  /** `list(tunable_params.values())`. */
  function Values(ts: seq<Tunable>): (vs: seq<Tensor>)
    ensures |vs| == |ts| && forall i | 0 <= i < |ts| :: vs[i] == ts[i].value
  {
    seq(|ts|, i requires 0 <= i < |ts| => ts[i].value)
  }

  /** The keys of the parameters that still track gradients. */
  ghost function TrainableKeys(ps: seq<NamedParam>, rule: KeyRule): set<string>
  {
    set i | 0 <= i < |ps| && ps[i].requiresGrad :: Key(rule, ps[i].name)
  }

  /** The keys of all parameters. */
  ghost function AllKeys(ps: seq<NamedParam>, rule: KeyRule): set<string>
  {
    set i | 0 <= i < |ps| :: Key(rule, ps[i].name)
  }

  /**
   * `out` is `ps` with the untunable parameters frozen: names and tensors
   * are kept, and a parameter still tracks gradients exactly when it did
   * before and its key is tunable.
   */
  predicate FrozenUntunable(ps: seq<NamedParam>, out: seq<NamedParam>, tunable: set<string>, rule: KeyRule)
  {
    && |out| == |ps|
    && (forall i | 0 <= i < |ps| :: out[i].name == ps[i].name && out[i].value == ps[i].value)
    && (forall i | 0 <= i < |ps| ::
          out[i].requiresGrad <==> ps[i].requiresGrad && Key(rule, ps[i].name) in tunable)
  }

  /**
   * The freezing loop: `if key not in tunable_params: v.requires_grad = False`.
   * A flag is cleared exactly when the key is not tunable, and a tunable
   * parameter's flag is never touched.
   */
  method FreezeUntunable(ps: seq<NamedParam>, tunable: set<string>, rule: KeyRule)
    returns (out: seq<NamedParam>)
    ensures FrozenUntunable(ps, out, tunable, rule)
  {
    out := ps;
    for i := 0 to |ps|
      invariant |out| == |ps|
      invariant forall j | 0 <= j < |ps| :: out[j].name == ps[j].name && out[j].value == ps[j].value
      invariant forall j | 0 <= j < i ::
        out[j].requiresGrad <==> ps[j].requiresGrad && Key(rule, ps[j].name) in tunable
      invariant forall j | i <= j < |ps| :: out[j] == ps[j]
    {
      if Key(rule, ps[i].name) !in tunable {
        out := out[i := out[i].(requiresGrad := false)];
      }
    }
  }

  /**
   * After freezing, the trainable keys are exactly the tunable keys among
   * those that were trainable before; so when every parameter starts
   * trainable and every tunable key names a parameter, the trainable set
   * is exactly the declared tunable set.
   */
  lemma FreezeSelectsTunable(ps: seq<NamedParam>, out: seq<NamedParam>, tunable: set<string>, rule: KeyRule)
    requires FrozenUntunable(ps, out, tunable, rule)
    ensures TrainableKeys(out, rule) == TrainableKeys(ps, rule) * tunable
    ensures (forall i | 0 <= i < |ps| :: ps[i].requiresGrad) && tunable <= AllKeys(ps, rule)
      ==> TrainableKeys(out, rule) == tunable
  {
    forall k | k in TrainableKeys(ps, rule) * tunable
      ensures k in TrainableKeys(out, rule)
    {
      var i :| 0 <= i < |ps| && ps[i].requiresGrad && Key(rule, ps[i].name) == k;
      assert out[i].requiresGrad;
    }
    if (forall i | 0 <= i < |ps| :: ps[i].requiresGrad) && tunable <= AllKeys(ps, rule) {
      forall k | k in tunable ensures k in TrainableKeys(ps, rule) {
        var i :| 0 <= i < |ps| && Key(rule, ps[i].name) == k;
        assert ps[i].requiresGrad;
      }
    }
  }

  /** `[p for p in params if p.ndim > 1]`. */
  function Matrices(vs: seq<Tensor>): (g: seq<Tensor>)
    ensures forall t | t in g :: Rank(t) > 1
    ensures multiset(g) <= multiset(vs)
  {
    if vs == [] then []
    else
      var rest := Matrices(vs[..|vs| - 1]);
      assert vs == vs[..|vs| - 1] + [vs[|vs| - 1]];
      if Rank(vs[|vs| - 1]) > 1 then rest + [vs[|vs| - 1]] else rest
  }

  /** `[p for p in params if p.ndim < 2]`. */
  function NonMatrices(vs: seq<Tensor>): (g: seq<Tensor>)
    ensures forall t | t in g :: Rank(t) < 2
    ensures multiset(g) <= multiset(vs)
  {
    if vs == [] then []
    else
      var rest := NonMatrices(vs[..|vs| - 1]);
      assert vs == vs[..|vs| - 1] + [vs[|vs| - 1]];
      if Rank(vs[|vs| - 1]) < 2 then rest + [vs[|vs| - 1]] else rest
  }

  /** Filtering one more tensor into the first group. */
  lemma MatricesSnoc(vs: seq<Tensor>, t: Tensor)
    ensures Matrices(vs + [t]) == Matrices(vs) + (if Rank(t) > 1 then [t] else [])
  {
    var vt := vs + [t];
    assert vt[..|vt| - 1] == vs;
  }

  /** Filtering one more tensor into the second group. */
  lemma NonMatricesSnoc(vs: seq<Tensor>, t: Tensor)
    ensures NonMatrices(vs + [t]) == NonMatrices(vs) + (if Rank(t) < 2 then [t] else [])
  {
    var vt := vs + [t];
    assert vt[..|vt| - 1] == vs;
  }

  /**
   * The first group keeps the tunable list's order: the group of a
   * concatenation is the concatenation of the parts' groups.
   */
  lemma {:induction false} MatricesKeepOrder(a: seq<Tensor>, b: seq<Tensor>)
    ensures Matrices(a + b) == Matrices(a) + Matrices(b)
  {
    if b == [] {
      assert a + b == a;
    } else {
      var init, last := b[..|b| - 1], b[|b| - 1];
      assert b == init + [last];
      assert a + b == (a + init) + [last];
      MatricesKeepOrder(a, init);
      MatricesSnoc(init, last);
      MatricesSnoc(a + init, last);
    }
  }

  /** The second group keeps the tunable list's order. */
  lemma {:induction false} NonMatricesKeepOrder(a: seq<Tensor>, b: seq<Tensor>)
    ensures NonMatrices(a + b) == NonMatrices(a) + NonMatrices(b)
  {
    if b == [] {
      assert a + b == a;
    } else {
      var init, last := b[..|b| - 1], b[|b| - 1];
      assert b == init + [last];
      assert a + b == (a + init) + [last];
      NonMatricesKeepOrder(a, init);
      NonMatricesSnoc(init, last);
      NonMatricesSnoc(a + init, last);
    }
  }

  /** The two optimizer groups together hold every tunable tensor exactly once. */
  lemma {:induction false} GroupsPartition(vs: seq<Tensor>)
    ensures multiset(Matrices(vs)) + multiset(NonMatrices(vs)) == multiset(vs)
  {
    if vs != [] {
      var init, last := vs[..|vs| - 1], vs[|vs| - 1];
      GroupsPartition(init);
      assert vs == init + [last];
      assert multiset(vs) == multiset(init) + multiset{last};
      if Rank(last) > 1 {
        assert Matrices(vs) == Matrices(init) + [last];
        assert NonMatrices(vs) == NonMatrices(init);
      } else {
        assert Matrices(vs) == Matrices(init);
        assert NonMatrices(vs) == NonMatrices(init) + [last];
      }
    }
  }
}
