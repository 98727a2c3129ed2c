/** Graph folding for retraining (fold_op.py): sibling modules Conv, BN
 *  [, ReLU] are fused into one folded module followed by identities, the
 *  predecessor dictionary prev_list is rewritten to name the folded
 *  module, and PIM units are attached to the layers that feed an ADC.
 *  Modules are identified by numbers; a dictionary value of None (the
 *  first layer's predecessor) is Option.None. */
module Fold {
  import opened Wrappers

  /** The module types fold_op.py tells apart. */
  datatype Kind =
    | Conv2dKind
    | BatchNormKind
    | ReLUKind
    | ShareQuantKind
    | LinearKind
    | ContainerKind  // a module with children of its own
    | Conv2dBNReLUKind
    | Conv2dBNKind
    | IdentityKind
    | OtherKind

  datatype Module = Module(id: nat, kind: Kind)

  // ---------------------------------------------------------------------
  // The predecessor dictionary
  // ---------------------------------------------------------------------

  /** No element occurs twice. */
  predicate Distinct(s: seq<nat>)
  {
    forall i, j :: 0 <= i < j < |s| ==> s[i] != s[j]
  }

  /** The elements of s outside a, in their order. */
  function Without(s: seq<nat>, a: set<nat>): (r: seq<nat>)
    ensures |r| <= |s|
  {
    if s == [] then [] else Without(s[..|s| - 1], a) + (if s[|s| - 1] in a then [] else [s[|s| - 1]])
  }

  /** Exactly the elements outside a survive. */
  lemma {:induction false} WithoutMembers(s: seq<nat>, a: set<nat>)
    ensures forall y :: y in Without(s, a) <==> y in s && y !in a
  {
    if s != [] {
      WithoutMembers(s[..|s| - 1], a);
      assert s == s[..|s| - 1] + [s[|s| - 1]];
    }
  }

  /** Filtering keeps a sequence free of repetitions. */
  lemma {:induction false} WithoutDistinct(s: seq<nat>, a: set<nat>)
    requires Distinct(s)
    ensures Distinct(Without(s, a))
  {
    if s != [] {
      var init := s[..|s| - 1];
      WithoutDistinct(init, a);
      WithoutMembers(init, a);
      assert s[|s| - 1] !in init;
    }
  }

  /** The last element of s that lies in a. */
  function LastIn(s: seq<nat>, a: set<nat>): (r: Option<nat>)
    ensures r.Some? ==> r.value in a && r.value in s
    ensures r.None? <==> forall y :: y in s ==> y !in a
  {
    if s == [] then None
    else if s[|s| - 1] in a then Some(s[|s| - 1])
    else
      assert forall y :: y in s[..|s| - 1] ==> y in s;
      LastIn(s[..|s| - 1], a)
  }

  /** A value that named an absorbed module now names the folded one. */
  function Redirected(v: Option<nat>, absorbed: set<nat>, folded: nat): (r: Option<nat>)
    ensures r.Some? && r.value !in absorbed ==> r == v || r == Some(folded)
    ensures v.Some? && v.value in absorbed ==> r == Some(folded)
    ensures v.None? || v.value !in absorbed ==> r == v
  {
    if v.Some? && v.value in absorbed then Some(folded) else v
  }

  /** prev_list: each module's predecessor, with Python's insertion order
   *  of the keys. */
  class PrevList {
    var order: seq<nat>
    var prev: map<nat, Option<nat>>

    /** The order lists every key exactly once. */
    ghost predicate Valid()
      reads this
    {
      Distinct(order) && forall k :: k in prev <==> k in order
    }

    constructor ()
      ensures Valid() && order == [] && prev == map[]
    {
      order := [];
      prev := map[];
    }

    /** The rewrite loop shared by fold_CBR (absorbed = {conv, relu}) and
     *  fold_CB (absorbed = {conv}), over a snapshot of the keys, on
     *  Python's dictionary: an assignment to a new key lists it last, a
     *  deletion keeps the others in order. RedirectFacts states what the
     *  new dictionary holds. */
    method Redirect(absorbed: set<nat>, folded: nat)
      requires Valid() && folded !in prev && folded !in absorbed
      modifies this
      ensures Valid()
      ensures order == RedirectedOrder(old(order), absorbed, folded)
      ensures prev == Rewrite(old(order), old(prev), absorbed, folded)
    {
      var keys, p := order, prev;
      var m: map<nat, Option<nat>> := prev;
      for i := 0 to |keys|
        invariant m == Rewrite(keys[..i], p, absorbed, folded)
      {
        var key := keys[i];
        assert keys[..i + 1][..i] == keys[..i];
        if key in m {
          var value := m[key];
          if value.Some? && value.value in absorbed {
            m := m[key := Some(folded)];
          }
          if key in absorbed {
            m := m[folded := m[key]];
            m := m - {key};
          }
        }
      }
      assert keys[..|keys|] == keys;
      RedirectFacts(keys, p, absorbed, folded);
      // Deletions keep the remaining keys in order and the folded module,
      // when it is inserted, is listed last.
      order := Without(keys, absorbed) + (if LastIn(keys, absorbed).Some? then [folded] else []);
      prev := m;
    }
  }

  /** The key order after the rewrite: deletions keep the remaining keys
   *  in order, and the folded module, when inserted, is listed last. */
  function RedirectedOrder(order: seq<nat>, absorbed: set<nat>, folded: nat): (r: seq<nat>)
    ensures |r| <= |order| + 1
  {
    Without(order, absorbed) + (if LastIn(order, absorbed).Some? then [folded] else [])
  }

  /** One iteration of the rewrite loop on key: a value naming an absorbed
   *  module is redirected, and an absorbed key hands its entry to the
   *  folded module and is deleted. */
  function StepMap(m: map<nat, Option<nat>>, key: nat, absorbed: set<nat>, folded: nat): map<nat, Option<nat>>
  {
    if key !in m then m
    else
      var v := if m[key].Some? && m[key].value in absorbed then m[key := Some(folded)] else m;
      if key in absorbed then v[folded := v[key]] - {key} else v
  }

  /** The rewrite loop run over keys, in order, starting from m. */
  function Rewrite(keys: seq<nat>, m: map<nat, Option<nat>>, absorbed: set<nat>, folded: nat): (r: map<nat, Option<nat>>)
  {
    if keys == [] then m
    else StepMap(Rewrite(keys[..|keys| - 1], m, absorbed, folded), keys[|keys| - 1], absorbed, folded)
  }

  /** The rewrite only ever adds the folded module as a key. */
  lemma {:induction false} RewriteKeys(keys: seq<nat>, m: map<nat, Option<nat>>, absorbed: set<nat>, folded: nat)
    ensures forall k :: k in Rewrite(keys, m, absorbed, folded) ==> k in m || k == folded
  {
    if keys != [] {
      RewriteKeys(keys[..|keys| - 1], m, absorbed, folded);
    }
  }

  /** What fold_CBR and fold_CB leave in prev_list: the keys are still
   *  listed once each; the absorbed keys are gone and no other key is
   *  lost; every value naming an absorbed module names the folded one;
   *  the folded module is a key exactly when an absorbed module was one,
   *  and then takes the entry of the absorbed key listed last. */
  lemma RedirectFacts(keys: seq<nat>, p: map<nat, Option<nat>>, absorbed: set<nat>, folded: nat)
    requires Distinct(keys) && (forall k :: k in p <==> k in keys)
    requires folded !in p && folded !in absorbed
    ensures var order1 := RedirectedOrder(keys, absorbed, folded);
            Distinct(order1) && forall k :: k in Rewrite(keys, p, absorbed, folded) <==> k in order1
    ensures var m := Rewrite(keys, p, absorbed, folded);
            && (forall k :: k in p && k !in absorbed ==> k in m && m[k] == Redirected(p[k], absorbed, folded))
            && (forall k :: k in absorbed ==> k !in m)
            && (forall k :: k in m ==> k in p || k == folded)
            && (folded in m <==> LastIn(keys, absorbed).Some?)
            && (folded in m ==> m[folded] == Redirected(p[LastIn(keys, absorbed).value], absorbed, folded))
  {
    RewriteInv(keys, p, |keys|, absorbed, folded);
    assert keys[..|keys|] == keys;
    RedirectDone(keys, p, Rewrite(keys, p, absorbed, folded), absorbed, folded);
  }

  /** The loop's invariant holds after each prefix of the keys. */
  lemma {:induction false} RewriteInv(keys: seq<nat>, p: map<nat, Option<nat>>, i: nat, absorbed: set<nat>, folded: nat)
    requires Distinct(keys) && (forall k :: k in p <==> k in keys)
    requires folded !in p && folded !in absorbed && i <= |keys|
    ensures RedirectInv(keys, p, Rewrite(keys[..i], p, absorbed, folded), i, absorbed, folded)
  {
    if i == 0 {
      assert keys[..0] == [];
    } else {
      var before, after := Rewrite(keys[..i - 1], p, absorbed, folded), Rewrite(keys[..i], p, absorbed, folded);
      assert after == StepMap(before, keys[i - 1], absorbed, folded) by {
        assert keys[..i][..i - 1] == keys[..i - 1];
      }
      assert RedirectInv(keys, p, before, i - 1, absorbed, folded) by {
        RewriteInv(keys, p, i - 1, absorbed, folded);
      }
      RedirectStep(keys, p, before, after, i, absorbed, folded);
    }
  }

  /** The rewrite loop's invariant after visiting keys[..i]: visited
   *  absorbed keys are gone, the folded module holds the entry of the last
   *  one, visited kept keys are redirected and the others untouched. */
  ghost predicate RedirectInv(keys: seq<nat>, p: map<nat, Option<nat>>, m: map<nat, Option<nat>>,
                              i: nat, absorbed: set<nat>, folded: nat)
  {
    && i <= |keys|
    && InvKeys(keys, p, m, i, absorbed, folded)
    && InvVisited(keys, p, m, i, absorbed, folded)
    && InvUnvisited(keys, p, m, i)
    && InvFolded(keys, p, m, i, absorbed, folded)
  }

  /** The keys after visiting keys[..i]: the visited absorbed keys are
   *  gone, and the folded module is one once an absorbed key was seen. */
  ghost predicate InvKeys(keys: seq<nat>, p: map<nat, Option<nat>>, m: map<nat, Option<nat>>,
                          i: nat, absorbed: set<nat>, folded: nat)
    requires i <= |keys|
  {
    forall k :: k in m <==> ((k in p && !(k in absorbed && k in keys[..i]))
                            || (k == folded && LastIn(keys[..i], absorbed).Some?))
  }

  /** The visited kept keys are redirected. */
  ghost predicate InvVisited(keys: seq<nat>, p: map<nat, Option<nat>>, m: map<nat, Option<nat>>,
                             i: nat, absorbed: set<nat>, folded: nat)
    requires i <= |keys|
  {
    forall j :: 0 <= j < i && keys[j] !in absorbed ==>
      keys[j] in m && keys[j] in p && m[keys[j]] == Redirected(p[keys[j]], absorbed, folded)
  }

  /** The keys still to visit are untouched. */
  ghost predicate InvUnvisited(keys: seq<nat>, p: map<nat, Option<nat>>, m: map<nat, Option<nat>>, i: nat)
  {
    forall j :: i <= j < |keys| ==> keys[j] in m && keys[j] in p && m[keys[j]] == p[keys[j]]
  }

  /** The folded module holds the entry of the last absorbed key seen. */
  ghost predicate InvFolded(keys: seq<nat>, p: map<nat, Option<nat>>, m: map<nat, Option<nat>>,
                            i: nat, absorbed: set<nat>, folded: nat)
    requires i <= |keys|
  {
    LastIn(keys[..i], absorbed).Some? ==>
      var last := LastIn(keys[..i], absorbed).value;
      folded in m && last in p && m[folded] == Redirected(p[last], absorbed, folded)
  }

  /** The facts about keys[i] that one iteration relies on. */
  lemma StepFacts(keys: seq<nat>, i: nat, absorbed: set<nat>)
    requires Distinct(keys) && i < |keys|
    ensures keys[i] !in keys[..i]
    ensures forall k :: k in keys[..i + 1] <==> k in keys[..i] || k == keys[i]
    ensures LastIn(keys[..i + 1], absorbed)
            == if keys[i] in absorbed then Some(keys[i]) else LastIn(keys[..i], absorbed)
  {
    var seen, seen1 := keys[..i], keys[..i + 1];
    assert seen1 == seen + [keys[i]];
    assert seen1[..i] == seen;
    forall j | 0 <= j < i ensures seen[j] != keys[i] { assert keys[j] != keys[i]; }
  }

  /** One iteration keeps the key set of the invariant. */
  lemma StepMembers(keys: seq<nat>, p: map<nat, Option<nat>>, m0: map<nat, Option<nat>>,
                    m1: map<nat, Option<nat>>, i: nat, absorbed: set<nat>, folded: nat)
    requires Distinct(keys) && (forall k :: k in p <==> k in keys)
    requires folded !in p && folded !in absorbed
    requires i < |keys| && RedirectInv(keys, p, m0, i, absorbed, folded)
    requires m1 == StepMap(m0, keys[i], absorbed, folded)
    ensures InvKeys(keys, p, m1, i + 1, absorbed, folded)
  {
    StepFacts(keys, i, absorbed);
  }

  /** One iteration redirects the visited kept keys. */
  lemma StepVisited(keys: seq<nat>, p: map<nat, Option<nat>>, m0: map<nat, Option<nat>>,
                    m1: map<nat, Option<nat>>, i: nat, absorbed: set<nat>, folded: nat)
    requires Distinct(keys) && (forall k :: k in p <==> k in keys)
    requires folded !in p && folded !in absorbed
    requires i < |keys| && RedirectInv(keys, p, m0, i, absorbed, folded)
    requires m1 == StepMap(m0, keys[i], absorbed, folded)
    ensures InvVisited(keys, p, m1, i + 1, absorbed, folded)
  {
    var key := keys[i];
    forall j | 0 <= j < i + 1 && keys[j] !in absorbed
      ensures keys[j] in m1 && m1[keys[j]] == Redirected(p[keys[j]], absorbed, folded)
    {
      if j < i {
        assert keys[j] != key;
      }
    }
  }

  /** One iteration leaves the keys still to visit untouched. */
  lemma StepUnvisited(keys: seq<nat>, p: map<nat, Option<nat>>, m0: map<nat, Option<nat>>,
                      m1: map<nat, Option<nat>>, i: nat, absorbed: set<nat>, folded: nat)
    requires Distinct(keys) && (forall k :: k in p <==> k in keys)
    requires folded !in p && folded !in absorbed
    requires i < |keys| && RedirectInv(keys, p, m0, i, absorbed, folded)
    requires m1 == StepMap(m0, keys[i], absorbed, folded)
    ensures InvUnvisited(keys, p, m1, i + 1)
  {
    var key := keys[i];
    forall j | i + 1 <= j < |keys|
      ensures keys[j] in m1 && m1[keys[j]] == p[keys[j]]
    {
      assert keys[j] != key;
    }
  }

  /** One iteration keeps the folded module's entry. */
  lemma StepFolded(keys: seq<nat>, p: map<nat, Option<nat>>, m0: map<nat, Option<nat>>,
                   m1: map<nat, Option<nat>>, i: nat, absorbed: set<nat>, folded: nat)
    requires Distinct(keys) && (forall k :: k in p <==> k in keys)
    requires folded !in p && folded !in absorbed
    requires i < |keys| && RedirectInv(keys, p, m0, i, absorbed, folded)
    requires m1 == StepMap(m0, keys[i], absorbed, folded)
    ensures InvFolded(keys, p, m1, i + 1, absorbed, folded)
  {
    StepFacts(keys, i, absorbed);
  }

  /** The iteration on keys[i - 1] keeps the rewrite loop's invariant. */
  lemma RedirectStep(keys: seq<nat>, p: map<nat, Option<nat>>, m0: map<nat, Option<nat>>,
                     m1: map<nat, Option<nat>>, i: nat, absorbed: set<nat>, folded: nat)
    requires Distinct(keys) && (forall k :: k in p <==> k in keys)
    requires folded !in p && folded !in absorbed
    requires 0 < i <= |keys| && RedirectInv(keys, p, m0, i - 1, absorbed, folded)
    requires m1 == StepMap(m0, keys[i - 1], absorbed, folded)
    ensures RedirectInv(keys, p, m1, i, absorbed, folded)
  {
    var j := i - 1;
    StepMembers(keys, p, m0, m1, j, absorbed, folded);
    StepVisited(keys, p, m0, m1, j, absorbed, folded);
    StepUnvisited(keys, p, m0, m1, j, absorbed, folded);
    StepFolded(keys, p, m0, m1, j, absorbed, folded);
  }

  /** What the rewrite loop leaves once every key is visited. */
  lemma RedirectDone(keys: seq<nat>, p: map<nat, Option<nat>>, m: map<nat, Option<nat>>,
                     absorbed: set<nat>, folded: nat)
    requires Distinct(keys) && (forall k :: k in p <==> k in keys)
    requires folded !in p && folded !in absorbed
    requires RedirectInv(keys, p, m, |keys|, absorbed, folded)
    ensures var order := Without(keys, absorbed) + (if LastIn(keys, absorbed).Some? then [folded] else []);
            Distinct(order) && forall k :: k in m <==> k in order
    ensures forall k :: k in p && k !in absorbed ==> k in m && m[k] == Redirected(p[k], absorbed, folded)
    ensures forall k :: k in absorbed ==> k !in m
    ensures forall k :: k in m ==> k in p || k == folded
    ensures folded in m <==> LastIn(keys, absorbed).Some?
    ensures folded in m ==> m[folded] == Redirected(p[LastIn(keys, absorbed).value], absorbed, folded)
  {
    assert keys[..|keys|] == keys;
    WithoutMembers(keys, absorbed);
    WithoutDistinct(keys, absorbed);
    forall k | k in p && k !in absorbed
      ensures k in m && m[k] == Redirected(p[k], absorbed, folded)
    {
      var j :| 0 <= j < |keys| && keys[j] == k;
    }
  }

  // ---------------------------------------------------------------------
  // Folding the siblings of one container
  // ---------------------------------------------------------------------

  /** The kinds after fold_the_convnet's scan: Conv, BN, ReLU become
   *  Conv2dBNReLU, Identity, Identity; Conv, BN otherwise become
   *  Conv2dBN, Identity; every other module stays. */
  function FoldedKinds(k: seq<Kind>): (r: seq<Kind>)
    ensures |r| == |k|
    decreases |k|
  {
    if k == [] then []
    else if |k| >= 3 && k[0] == Conv2dKind && k[1] == BatchNormKind && k[2] == ReLUKind then
      [Conv2dBNReLUKind, IdentityKind, IdentityKind] + FoldedKinds(k[3..])
    else if |k| >= 2 && k[0] == Conv2dKind && k[1] == BatchNormKind then
      [Conv2dBNKind, IdentityKind] + FoldedKinds(k[2..])
    else [k[0]] + FoldedKinds(k[1..])
  }

  /** After the scan no Conv is directly followed by a BN. */
  lemma NoFusablePairLeft(k: seq<Kind>)
    ensures forall i :: 0 <= i < |k| - 1 ==>
              !(FoldedKinds(k)[i] == Conv2dKind && FoldedKinds(k)[i + 1] == BatchNormKind)
  {
    FoldedKindsAt(k);
  }

  /** Modules that are not Conv, BN or ReLU keep their kind. */
  lemma OthersKept(k: seq<Kind>)
    ensures forall i :: 0 <= i < |k| && k[i] !in {Conv2dKind, BatchNormKind, ReLUKind} ==>
              FoldedKinds(k)[i] == k[i]
  {
    FoldedKindsAt(k);
  }

  /** The kinds of a row of modules. */
  function Kinds(s: seq<Module>): (r: seq<Kind>)
    ensures |r| == |s|
    ensures forall i :: 0 <= i < |s| ==> r[i] == s[i].kind
  {
    seq(|s|, i requires 0 <= i < |s| => s[i].kind)
  }

  /** The kind the scan leaves at slot i, read off the slot's neighbours:
   *  a Conv followed by a BN becomes the folded module (with the ReLU when
   *  one follows), and the BN and ReLU it absorbs become identities. */
  function FoldedKindAt(k: seq<Kind>, i: nat): (r: Kind)
    requires i < |k|
    ensures r == k[i] || r in {Conv2dBNReLUKind, Conv2dBNKind, IdentityKind}
    ensures k[i] !in {Conv2dKind, BatchNormKind, ReLUKind} ==> r == k[i]
  {
    if k[i] == Conv2dKind && i + 1 < |k| && k[i + 1] == BatchNormKind then
      (if i + 2 < |k| && k[i + 2] == ReLUKind then Conv2dBNReLUKind else Conv2dBNKind)
    else if k[i] == BatchNormKind && i >= 1 && k[i - 1] == Conv2dKind then IdentityKind
    else if k[i] == ReLUKind && i >= 2 && k[i - 2] == Conv2dKind && k[i - 1] == BatchNormKind then IdentityKind
    else k[i]
  }

  /** A scan that resumes at c sees what a scan from the start sees there,
   *  as long as c does not split a Conv, BN pair. */
  lemma ShiftKindAt(k: seq<Kind>, c: nat, j: nat)
    requires 1 <= c && c + j < |k|
    requires !(k[c - 1] == Conv2dKind && k[c] == BatchNormKind)
    requires !(c >= 2 && k[c - 2] == Conv2dKind && k[c - 1] == BatchNormKind && k[c] == ReLUKind)
    ensures FoldedKindAt(k[c..], j) == FoldedKindAt(k, c + j)
  {
    assert forall x :: 0 <= x < |k| - c ==> k[c..][x] == k[c + x];
  }

  /** The chunk-by-chunk scan and the slot-by-slot reading agree. */
  lemma {:induction false} FoldedKindsAt(k: seq<Kind>)
    ensures forall i :: 0 <= i < |k| ==> FoldedKinds(k)[i] == FoldedKindAt(k, i)
    decreases |k|
  {
    if k != [] {
      var c := if |k| >= 3 && k[0] == Conv2dKind && k[1] == BatchNormKind && k[2] == ReLUKind then 3
               else if |k| >= 2 && k[0] == Conv2dKind && k[1] == BatchNormKind then 2
               else 1;
      var r, tail := FoldedKinds(k), FoldedKinds(k[c..]);
      assert r == r[..c] + tail;
      FoldedKindsAt(k[c..]);
      forall i | 0 <= i < |k|
        ensures r[i] == FoldedKindAt(k, i)
      {
        if i >= c {
          assert r[i] == tail[i - c];
          ShiftKindAt(k, c, i - c);
        }
      }
    }
  }

  /** A slot keeps its module or holds the new module with id newId. */
  predicate Kept(now: Module, was: Module, newId: nat)
  {
    now == was || now.id == newId
  }

  /** The module at slot i after the scan: the original module when its
   *  kind is unchanged, otherwise the module created for the slot,
   *  numbered base + i. */
  function FoldedAt(s: seq<Module>, base: nat, i: nat): (r: Module)
    requires i < |s|
    ensures Kept(r, s[i], base + i)
    ensures r.kind == s[i].kind ==> r == s[i]
  {
    var kind := FoldedKindAt(Kinds(s), i);
    if kind == s[i].kind then s[i] else Module(base + i, kind)
  }

  /** The row after fold_the_convnet's scan. */
  function Folded(s: seq<Module>, base: nat): (r: seq<Module>)
    ensures |r| == |s|
  {
    seq(|s|, i requires 0 <= i < |s| => FoldedAt(s, base, i))
  }

  /** The folded row has the kinds FoldedKinds gives, and each of its
   *  slots keeps its module or holds the module created for it. */
  lemma FoldedRow(s: seq<Module>, base: nat)
    ensures Kinds(Folded(s, base)) == FoldedKinds(Kinds(s))
    ensures forall i :: 0 <= i < |s| ==> Kept(Folded(s, base)[i], s[i], base + i)
  {
    FoldedKindsAt(Kinds(s));
  }

  /** Slot flag of s begins a chunk of the scan: it does not hold a BN or
   *  ReLU that the Conv before it absorbs. */
  predicate Boundary(s: seq<Module>, flag: nat)
    requires flag <= |s|
  {
    || flag == 0 || flag == |s|
    || (&& !(s[flag - 1].kind == Conv2dKind && s[flag].kind == BatchNormKind)
        && !(flag >= 2 && s[flag - 2].kind == Conv2dKind && s[flag - 1].kind == BatchNormKind
             && s[flag].kind == ReLUKind))
  }

  /** A module with children: net._modules, in their order. */
  class Net {
    var modules: seq<Module>

    constructor (modules: seq<Module>)
      ensures this.modules == modules
    {
      this.modules := modules;
    }
  }

  /** fold_the_convnet on the children of one module: the scan fuses
   *  Conv, BN, ReLU and Conv, BN runs into folded modules and identities,
   *  and rewrites prev_list for each. Module ids at or above `nextId` are
   *  unused; the module created at slot i gets id nextId + i. */
  method FoldTheConvnet(net: Net, prevList: PrevList, nextId: nat)
    requires prevList.Valid()
    requires forall i :: 0 <= i < |net.modules| ==> net.modules[i].id < nextId
    requires forall k :: k in prevList.prev ==> k < nextId
    modifies net, prevList
    ensures prevList.Valid()
    ensures net.modules == Folded(old(net.modules), nextId)
    ensures Dict(prevList.order, prevList.prev)
            == ScanDict(old(net.modules), nextId, 0, Dict(old(prevList.order), old(prevList.prev)))
    ensures forall k :: k in prevList.prev ==> k in old(prevList.prev) || nextId <= k < nextId + |net.modules|
    ensures forall k :: k in AbsorbedFrom(old(net.modules), 0) ==> k !in prevList.prev
    ensures forall k :: k in prevList.prev && prevList.prev[k].Some? ==>
              prevList.prev[k].value !in AbsorbedFrom(old(net.modules), 0)
    ensures forall k :: k in old(prevList.prev) && k !in AbsorbedFrom(old(net.modules), 0) ==>
              k in prevList.prev
              && prevList.prev[k] == RedirectAll(old(prevList.prev)[k], old(net.modules), nextId, 0)
  {
    ghost var original := net.modules;
    ghost var start := Dict(prevList.order, prevList.prev);
    var mods := net.modules;
    var n := |mods|;
    var flag := 0;
    while flag < n
      invariant n == |mods| && prevList.Valid()
      invariant ScanState(original, nextId, mods, flag, Dict(prevList.order, prevList.prev), start)
      decreases n - flag
    {
      ghost var before, at, d := mods, flag, Dict(prevList.order, prevList.prev);
      mods, flag := ScanAt(mods, prevList, nextId, flag);
      RowStep(original, nextId, before, at);
      DictStep(original, nextId, before, at, d, start, Dict(prevList.order, prevList.prev));
    }
    // The slots are written back as the scan goes; nothing reads them
    // before it ends.
    net.modules := mods;
    ScanStateDone(original, nextId, mods, Dict(prevList.order, prevList.prev), start);
  }

  /** The scan has reached flag: the row is folded before flag and
   *  untouched from flag on, and prev_list is the one the scan from the
   *  start reaches there, the rest of the scan still to come. */
  ghost predicate ScanState(original: seq<Module>, base: nat, mods: seq<Module>, flag: nat, d: Dict, start: Dict)
  {
    RowScanned(original, base, mods, flag) && DictScanned(original, base, flag, d, start)
  }

  /** The row is folded before flag and untouched from flag on, where
   *  every module is numbered below base. */
  ghost predicate RowScanned(original: seq<Module>, base: nat, mods: seq<Module>, flag: nat)
  {
    && flag <= |mods|
    && ScannedTo(original, base, mods, flag)
    && (forall i :: flag <= i < |mods| ==> mods[i].id < base)
  }

  /** prev_list's keys lie below the next free number, and the rest of
   *  the scan from flag leads where the scan from the start leads. */
  ghost predicate DictScanned(original: seq<Module>, base: nat, flag: nat, d: Dict, start: Dict)
  {
    && (forall k :: k in d.prev ==> k < base + flag)
    && ScanDict(original, base, flag, d) == ScanDict(original, base, 0, start)
  }

  /** One pass of the scan keeps RowScanned. */
  lemma RowStep(original: seq<Module>, base: nat, mods: seq<Module>, flag: nat)
    requires flag < |mods| && RowScanned(original, base, mods, flag)
    ensures RowScanned(original, base, Fuse(mods, flag, base + flag), flag + RunLen(mods, flag))
    ensures RunLen(mods, flag) == RunLen(original, flag)
    ensures forall i :: flag <= i < |mods| ==> mods[i] == original[i]
  {
    ScanAdvance(original, base, mods, flag);
    SameRun(mods, original, flag, base + flag, Dict([], map[]));
  }

  /** One pass of the scan keeps DictScanned. */
  lemma DictStep(original: seq<Module>, base: nat, mods: seq<Module>, flag: nat, d: Dict, start: Dict, d1: Dict)
    requires |mods| == |original| && flag < |mods|
    requires forall i :: flag <= i < |mods| ==> mods[i] == original[i]
    requires DictScanned(original, base, flag, d, start)
    requires d1 == ScanStep(mods, flag, base + flag, d)
    requires forall k :: k in d1.prev ==> k < base + flag + RunLen(mods, flag)
    ensures DictScanned(original, base, flag + RunLen(mods, flag), d1, start)
  {
    SameRun(mods, original, flag, base + flag, d);
    ScanDictStep(original, base, flag, d, d1);
  }

  /** A finished scan leaves the folded row, and prev_list as the scan
   *  from the start leaves it, with the facts ScanFromStart gives. */
  lemma ScanStateDone(original: seq<Module>, base: nat, mods: seq<Module>, d: Dict, start: Dict)
    requires RowScanned(original, base, mods, |mods|) && DictScanned(original, base, |mods|, d, start)
    requires DictValid(start)
    requires forall i :: 0 <= i < |original| ==> original[i].id < base
    requires forall k :: k in start.prev ==> k < base
    ensures mods == Folded(original, base)
    ensures d == ScanDict(original, base, 0, start)
    ensures forall k :: k in d.prev ==> k in start.prev || base <= k < base + |original|
    ensures forall k :: k in AbsorbedFrom(original, 0) ==> k !in d.prev
    ensures forall k :: k in d.prev && d.prev[k].Some? ==> d.prev[k].value !in AbsorbedFrom(original, 0)
    ensures forall k :: k in start.prev && k !in AbsorbedFrom(original, 0) ==>
              k in d.prev && d.prev[k] == RedirectAll(start.prev[k], original, base, 0)
  {
    ScannedAll(original, base, mods);
    ScanFromStart(original, base, start, d);
  }

  /** How many modules the scan takes at position flag: a Conv, BN, ReLU
   *  run, a Conv, BN pair, or a single module. */
  function RunLen(s: seq<Module>, flag: nat): (c: nat)
    requires flag < |s|
    ensures 1 <= c <= 3 && flag + c <= |s|
  {
    if flag + 2 < |s| && s[flag].kind == Conv2dKind && s[flag + 1].kind == BatchNormKind
       && s[flag + 2].kind == ReLUKind then 3
    else if flag + 1 < |s| && s[flag].kind == Conv2dKind && s[flag + 1].kind == BatchNormKind then 2
    else 1
  }

  /** The row after the run at flag is replaced by the folded module,
   *  numbered folded, and its identities. */
  function Fuse(s: seq<Module>, flag: nat, folded: nat): (r: seq<Module>)
    requires flag < |s|
    ensures |r| == |s|
    ensures forall i :: 0 <= i < |s| && !(flag <= i < flag + RunLen(s, flag)) ==> r[i] == s[i]
  {
    match RunLen(s, flag)
    case 3 => s[flag := Module(folded, Conv2dBNReLUKind)][flag + 1 := Module(folded + 1, IdentityKind)]
               [flag + 2 := Module(folded + 2, IdentityKind)]
    case 2 => s[flag := Module(folded, Conv2dBNKind)][flag + 1 := Module(folded + 1, IdentityKind)]
    case _ => s
  }

  /** The scan has reached position flag of the row now: the slots before
   *  flag hold the folded row, the slots from flag on hold the original
   *  row, and flag starts a run. */
  ghost predicate ScannedTo(original: seq<Module>, base: nat, now: seq<Module>, flag: nat)
  {
    && flag <= |now| == |original|
    && Boundary(original, flag)
    && (forall i :: 0 <= i < flag ==> now[i] == FoldedAt(original, base, i))
    && (forall i :: flag <= i < |now| ==> now[i] == original[i])
  }

  /** A finished scan leaves the folded row. */
  lemma ScannedAll(original: seq<Module>, base: nat, now: seq<Module>)
    requires ScannedTo(original, base, now, |now|)
    ensures now == Folded(original, base)
  {
  }

  /** Fusing the run at flag moves the scan past it. */
  lemma ScanAdvance(original: seq<Module>, base: nat, now: seq<Module>, flag: nat)
    requires ScannedTo(original, base, now, flag) && flag < |now|
    ensures ScannedTo(original, base, Fuse(now, flag, base + flag), flag + RunLen(now, flag))
  {
    var after, c := Fuse(now, flag, base + flag), RunLen(now, flag);
    if c == 3 {
      FoldedTriple(original, base, flag);
      assert after[flag + 2] == FoldedAt(original, base, flag + 2);
    } else if c == 2 {
      FoldedPair(original, base, flag);
    } else {
      FoldedSingle(original, base, flag);
    }
    assert after[flag] == FoldedAt(original, base, flag);
    assert c >= 2 ==> after[flag + 1] == FoldedAt(original, base, flag + 1);
    forall i | 0 <= i < flag + c
      ensures after[i] == FoldedAt(original, base, i)
    {
      if i >= flag {
        assert i == flag || i == flag + 1 || i == flag + 2;
      }
    }
  }

  /** One pass of fold_the_convnet's while loop at position flag: a
   *  Conv, BN, ReLU run goes through fold_CBR, a Conv, BN pair through
   *  fold_CB, and the returned modules take the run's slots. The scan
   *  resumes after the run. */
  method ScanAt(mods: seq<Module>, prevList: PrevList, nextId: nat, flag: nat)
    returns (modsNew: seq<Module>, next: nat)
    requires flag < |mods| && prevList.Valid()
    requires forall i :: flag <= i < |mods| ==> mods[i].id < nextId
    requires forall k :: k in prevList.prev ==> k < nextId + flag
    modifies prevList
    ensures prevList.Valid()
    ensures next == flag + RunLen(mods, flag)
    ensures modsNew == Fuse(mods, flag, nextId + flag)
    ensures forall k :: k in prevList.prev ==> k < nextId + next
    ensures Dict(prevList.order, prevList.prev)
            == ScanStep(mods, flag, nextId + flag, Dict(old(prevList.order), old(prevList.prev)))
  {
    var n := |mods|;
    var m := mods[flag];
    if m.kind == Conv2dKind && flag + 1 < n && mods[flag + 1].kind == BatchNormKind {
      if flag + 2 < n && mods[flag + 2].kind == ReLUKind {
        ghost var keys, p := prevList.order, prevList.prev;
        var conv, bn, relu := FoldCBR(m, mods[flag + 1], mods[flag + 2], prevList, nextId + flag);
        RewriteKeys(keys, p, {m.id, mods[flag + 2].id}, nextId + flag);
        modsNew, next := mods[flag := conv][flag + 1 := bn][flag + 2 := relu], flag + 3;
      } else {
        ghost var keys, p := prevList.order, prevList.prev;
        var conv, bn := FoldCB(m, mods[flag + 1], prevList, nextId + flag);
        RewriteKeys(keys, p, {m.id}, nextId + flag);
        modsNew, next := mods[flag := conv][flag + 1 := bn], flag + 2;
      }
    } else {
      // A module with children is folded by a call of its own, which
      // this model leaves out; at this level it is not matched.
      modsNew, next := mods, flag + 1;
    }
  }

  /** A Conv, BN, ReLU run becomes the folded module and two identities,
   *  and the scan resumes after it. */
  lemma FoldedTriple(s: seq<Module>, base: nat, flag: nat)
    requires flag + 2 < |s|
    requires s[flag].kind == Conv2dKind && s[flag + 1].kind == BatchNormKind && s[flag + 2].kind == ReLUKind
    ensures FoldedAt(s, base, flag) == Module(base + flag, Conv2dBNReLUKind)
    ensures FoldedAt(s, base, flag + 1) == Module(base + flag + 1, IdentityKind)
    ensures FoldedAt(s, base, flag + 2) == Module(base + flag + 2, IdentityKind)
    ensures Boundary(s, flag + 3)
  {
  }

  /** A Conv, BN pair without a ReLU after it becomes the folded module
   *  and an identity, and the scan resumes after it. */
  lemma FoldedPair(s: seq<Module>, base: nat, flag: nat)
    requires flag + 1 < |s|
    requires s[flag].kind == Conv2dKind && s[flag + 1].kind == BatchNormKind
    requires !(flag + 2 < |s| && s[flag + 2].kind == ReLUKind)
    ensures FoldedAt(s, base, flag) == Module(base + flag, Conv2dBNKind)
    ensures FoldedAt(s, base, flag + 1) == Module(base + flag + 1, IdentityKind)
    ensures Boundary(s, flag + 2)
  {
  }

  /** Any other module at a chunk start is kept, and the scan moves on by
   *  one. */
  lemma FoldedSingle(s: seq<Module>, base: nat, flag: nat)
    requires flag < |s| && Boundary(s, flag)
    requires !(s[flag].kind == Conv2dKind && flag + 1 < |s| && s[flag + 1].kind == BatchNormKind)
    ensures FoldedAt(s, base, flag) == s[flag]
    ensures Boundary(s, flag + 1)
  {
  }

  /** fold_CBR: the folded module (numbered folded) and two identities
   *  replace conv, bn and relu, and prev_list names the folded module
   *  wherever it named conv or relu. */
  method FoldCBR(conv: Module, bn: Module, relu: Module, prevList: PrevList, folded: nat)
    returns (convNew: Module, bnNew: Module, reluNew: Module)
    requires prevList.Valid() && folded !in prevList.prev && folded !in {conv.id, relu.id}
    modifies prevList
    ensures convNew == Module(folded, Conv2dBNReLUKind)
    ensures bnNew == Module(folded + 1, IdentityKind) && reluNew == Module(folded + 2, IdentityKind)
    ensures prevList.Valid()
    ensures prevList.order == RedirectedOrder(old(prevList.order), {conv.id, relu.id}, folded)
    ensures prevList.prev == Rewrite(old(prevList.order), old(prevList.prev), {conv.id, relu.id}, folded)
  {
    prevList.Redirect({conv.id, relu.id}, folded);
    convNew := Module(folded, Conv2dBNReLUKind);
    bnNew := Module(folded + 1, IdentityKind);
    reluNew := Module(folded + 2, IdentityKind);
  }

  /** fold_CB: the folded module (numbered folded) and an identity replace
   *  conv and bn, and prev_list names the folded module wherever it named
   *  conv. */
  method FoldCB(conv: Module, bn: Module, prevList: PrevList, folded: nat)
    returns (convNew: Module, bnNew: Module)
    requires prevList.Valid() && folded !in prevList.prev && folded != conv.id
    modifies prevList
    ensures convNew == Module(folded, Conv2dBNKind) && bnNew == Module(folded + 1, IdentityKind)
    ensures prevList.Valid()
    ensures prevList.order == RedirectedOrder(old(prevList.order), {conv.id}, folded)
    ensures prevList.prev == Rewrite(old(prevList.order), old(prevList.prev), {conv.id}, folded)
  {
    prevList.Redirect({conv.id}, folded);
    convNew := Module(folded, Conv2dBNKind);
    bnNew := Module(folded + 1, IdentityKind);
  }

  // ---------------------------------------------------------------------
  // prev_list after the whole scan
  // ---------------------------------------------------------------------

  /** prev_list as a value: its key order and its entries. */
  datatype Dict = Dict(order: seq<nat>, prev: map<nat, Option<nat>>)

  /** The order lists every key exactly once. */
  ghost predicate DictValid(d: Dict)
  {
    Distinct(d.order) && forall k :: k in d.prev <==> k in d.order
  }

  /** The modules whose entries the run at flag folds away: the Conv and
   *  the ReLU of a Conv, BN, ReLU run, the Conv of a Conv, BN pair, none
   *  for a single module. */
  function Absorbed(s: seq<Module>, flag: nat): (a: set<nat>)
    requires flag < |s|
    ensures forall x :: x in a ==> x == s[flag].id || (flag + 2 < |s| && x == s[flag + 2].id)
    ensures RunLen(s, flag) == 1 <==> a == {}
  {
    match RunLen(s, flag)
    case 3 => {s[flag].id, s[flag + 2].id}
    case 2 => {s[flag].id}
    case _ => {}
  }

  /** prev_list after the scan visits the run at flag: fold_CBR or fold_CB
   *  rewrites it with the folded module numbered folded; a single module
   *  leaves it alone. */
  function ScanStep(s: seq<Module>, flag: nat, folded: nat, d: Dict): Dict
    requires flag < |s|
  {
    if RunLen(s, flag) == 1 then d
    else
      var a := Absorbed(s, flag);
      Dict(RedirectedOrder(d.order, a, folded), Rewrite(d.order, d.prev, a, folded))
  }

  /** prev_list after the scan goes from flag to the end of the row, the
   *  run at slot i creating the module numbered base + i. */
  function ScanDict(s: seq<Module>, base: nat, flag: nat, d: Dict): Dict
    decreases |s| - flag
  {
    if flag >= |s| then d
    else ScanDict(s, base, flag + RunLen(s, flag), ScanStep(s, flag, base + flag, d))
  }

  /** The scan from flag is the run at flag followed by the scan from
   *  where that run ends. */
  lemma ScanDictStep(s: seq<Module>, base: nat, flag: nat, d: Dict, d1: Dict)
    requires flag < |s| && d1 == ScanStep(s, flag, base + flag, d)
    ensures ScanDict(s, base, flag, d) == ScanDict(s, base, flag + RunLen(s, flag), d1)
  {
  }

  /** Every module a run from flag on folds away. */
  function AbsorbedFrom(s: seq<Module>, flag: nat): set<nat>
    decreases |s| - flag
  {
    if flag >= |s| then {}
    else Absorbed(s, flag) + AbsorbedFrom(s, flag + RunLen(s, flag))
  }

  /** The number of the folded module that absorbs id, when a run from flag
   *  on absorbs it. */
  function FoldTarget(s: seq<Module>, base: nat, flag: nat, id: nat): (r: Option<nat>)
    ensures r.Some? <==> id in AbsorbedFrom(s, flag)
    ensures r.Some? ==> base + flag <= r.value < base + |s|
    decreases |s| - flag
  {
    if flag >= |s| then None
    else if id in Absorbed(s, flag) then Some(base + flag)
    else FoldTarget(s, base, flag + RunLen(s, flag), id)
  }

  /** A predecessor as the scan from flag on leaves it: a folded-away
   *  module is replaced by the module that absorbed it. */
  function RedirectAll(v: Option<nat>, s: seq<Module>, base: nat, flag: nat): (r: Option<nat>)
    ensures v.None? || v.value !in AbsorbedFrom(s, flag) ==> r == v
    ensures v.Some? && v.value in AbsorbedFrom(s, flag) ==> r == FoldTarget(s, base, flag, v.value)
  {
    if v.Some? && FoldTarget(s, base, flag, v.value).Some? then FoldTarget(s, base, flag, v.value) else v
  }

  /** After a rewrite no entry names an absorbed module, and an entry
   *  below base (the first number free for folded modules) is one the
   *  dictionary held before. */
  lemma RewriteValues(keys: seq<nat>, p: map<nat, Option<nat>>, absorbed: set<nat>, folded: nat, base: nat)
    requires Distinct(keys) && (forall k :: k in p <==> k in keys)
    requires folded !in p && folded !in absorbed && base <= folded
    ensures var m := Rewrite(keys, p, absorbed, folded);
            forall k :: k in m && m[k].Some? && m[k].value < base ==> m[k] in p.Values && m[k].value !in absorbed
  {
    var m := Rewrite(keys, p, absorbed, folded);
    RedirectFacts(keys, p, absorbed, folded);
    forall k | k in m && m[k].Some? && m[k].value < base
      ensures m[k] in p.Values && m[k].value !in absorbed
    {
      var source := if k == folded then LastIn(keys, absorbed).value else k;
      assert p[source] in p.Values;
    }
  }

  /** Every number in a lies below base. */
  ghost predicate Below(a: set<nat>, base: nat)
  {
    forall x :: x in a ==> x < base
  }

  /** Every key of e is a key of d outside gone, or a number in [lo, hi). */
  ghost predicate KeysKept(e: Dict, d: Dict, gone: set<nat>, lo: nat, hi: nat)
  {
    forall k :: k in e.prev ==> (k in d.prev && k !in gone) || lo <= k < hi
  }

  /** Every entry of e that names a module below base is an entry of d,
   *  and names no module in gone. */
  ghost predicate ValuesKept(e: Dict, d: Dict, gone: set<nat>, base: nat)
  {
    forall k :: k in e.prev && e.prev[k].Some? && e.prev[k].value < base ==>
      e.prev[k] in d.prev.Values && e.prev[k].value !in gone
  }

  /** Every key of d that the scan from flag does not fold away keeps its
   *  entry in e, redirected through that scan. */
  ghost predicate RedirectedThrough(e: Dict, d: Dict, s: seq<Module>, base: nat, flag: nat)
  {
    forall k :: k in d.prev && k !in AbsorbedFrom(s, flag) ==>
      k in e.prev && e.prev[k] == RedirectAll(d.prev[k], s, base, flag)
  }

  /** Every key of d outside a keeps its entry in d1, redirected once. */
  ghost predicate RedirectedOnce(d1: Dict, d: Dict, a: set<nat>, f: nat)
  {
    forall k :: k in d.prev && k !in a ==> k in d1.prev && d1.prev[k] == Redirected(d.prev[k], a, f)
  }

  /** What one rewrite with absorbed modules a and the folded module f
   *  does to prev_list, with the facts the scan composes. */
  lemma RewriteDictFacts(d: Dict, a: set<nat>, f: nat, base: nat)
    requires DictValid(d) && f !in d.prev && f !in a && base <= f
    ensures var d1 := Dict(RedirectedOrder(d.order, a, f), Rewrite(d.order, d.prev, a, f));
            && DictValid(d1)
            && KeysKept(d1, d, a, f, f + 1)
            && RedirectedOnce(d1, d, a, f)
            && ValuesKept(d1, d, a, base)
  {
    RedirectFacts(d.order, d.prev, a, f);
    RewriteValues(d.order, d.prev, a, f, base);
  }

  /** What one run does to prev_list: the absorbed keys are gone, the only
   *  new key is the folded module, the other entries are redirected, and
   *  no entry names an absorbed module or a module it did not name before,
   *  apart from the folded one. */
  lemma StepDictFacts(s: seq<Module>, flag: nat, base: nat, d: Dict)
    requires flag < |s| && DictValid(d)
    requires forall i :: flag <= i < |s| ==> s[i].id < base
    requires forall k :: k in d.prev ==> k < base + flag
    ensures Below(Absorbed(s, flag), base)
    ensures var d1, a, f := ScanStep(s, flag, base + flag, d), Absorbed(s, flag), base + flag;
            && DictValid(d1)
            && KeysKept(d1, d, a, f, f + 1)
            && RedirectedOnce(d1, d, a, f)
            && ValuesKept(d1, d, a, base)
  {
    var a, f := Absorbed(s, flag), base + flag;
    assert Below(a, base);
    if RunLen(s, flag) != 1 {
      RewriteDictFacts(d, a, f, base);
    } else {
      assert a == {};
      assert forall k :: k in d.prev ==> d.prev[k] in d.prev.Values;
    }
  }

  /** Redirecting at the run at flag and then through the rest of the scan,
   *  which resumes at next, is redirecting through the scan from flag. */
  lemma RedirectAllStep(v: Option<nat>, s: seq<Module>, base: nat, flag: nat, next: nat)
    requires flag < |s| && next == flag + RunLen(s, flag)
    requires Below(AbsorbedFrom(s, next), base)
    ensures RedirectAll(Redirected(v, Absorbed(s, flag), base + flag), s, base, next)
            == RedirectAll(v, s, base, flag)
  {
    var a, f := Absorbed(s, flag), base + flag;
    if v.Some? && v.value in a {
      assert f !in AbsorbedFrom(s, next);
    }
  }

  /** The keys the run at flag keeps, then the keys the rest keeps. */
  lemma ComposeKeys(s: seq<Module>, base: nat, flag: nat, next: nat, d: Dict, d1: Dict, e: Dict)
    requires flag < |s| && next == flag + RunLen(s, flag)
    requires KeysKept(d1, d, Absorbed(s, flag), base + flag, base + flag + 1)
    requires KeysKept(e, d1, AbsorbedFrom(s, next), base + next, base + |s|)
    ensures KeysKept(e, d, AbsorbedFrom(s, flag), base + flag, base + |s|)
  {
    assert AbsorbedFrom(s, flag) == Absorbed(s, flag) + AbsorbedFrom(s, next);
  }

  /** The entries the run at flag keeps, then the entries the rest keeps. */
  lemma ComposeValues(s: seq<Module>, base: nat, flag: nat, next: nat, d: Dict, d1: Dict, e: Dict)
    requires flag < |s| && next == flag + RunLen(s, flag)
    requires ValuesKept(d1, d, Absorbed(s, flag), base)
    requires ValuesKept(e, d1, AbsorbedFrom(s, next), base)
    ensures ValuesKept(e, d, AbsorbedFrom(s, flag), base)
  {
    assert AbsorbedFrom(s, flag) == Absorbed(s, flag) + AbsorbedFrom(s, next);
    forall k | k in e.prev && e.prev[k].Some? && e.prev[k].value < base
      ensures e.prev[k] in d.prev.Values && e.prev[k].value !in AbsorbedFrom(s, flag)
    {
      var k1 :| k1 in d1.prev && d1.prev[k1] == e.prev[k];
    }
  }

  /** The redirection at the run at flag, then through the rest. */
  lemma ComposeRedirect(s: seq<Module>, base: nat, flag: nat, next: nat, d: Dict, d1: Dict, e: Dict)
    requires flag < |s| && next == flag + RunLen(s, flag)
    requires Below(AbsorbedFrom(s, next), base)
    requires RedirectedOnce(d1, d, Absorbed(s, flag), base + flag)
    requires RedirectedThrough(e, d1, s, base, next)
    ensures RedirectedThrough(e, d, s, base, flag)
  {
    assert AbsorbedFrom(s, flag) == Absorbed(s, flag) + AbsorbedFrom(s, next);
    forall k | k in d.prev && k !in AbsorbedFrom(s, flag)
      ensures k in e.prev && e.prev[k] == RedirectAll(d.prev[k], s, base, flag)
    {
      RedirectAllStep(d.prev[k], s, base, flag, next);
    }
  }

  /** What one run may do to prev_list, as the scan's facts need it: d1
   *  stays well formed with its keys below the next free number, keeps
   *  only keys of d outside the absorbed ones besides the folded module,
   *  redirects the keys it keeps, and names no absorbed module. */
  ghost predicate StepRel(s: seq<Module>, base: nat, flag: nat, d: Dict, d1: Dict)
    requires flag < |s|
  {
    var a, f := Absorbed(s, flag), base + flag;
    && DictValid(d1)
    && (forall k :: k in d1.prev ==> k < f + RunLen(s, flag))
    && KeysKept(d1, d, a, f, f + 1)
    && RedirectedOnce(d1, d, a, f)
    && ValuesKept(d1, d, a, base)
  }

  /** e is reached from d by the runs from flag on, each related by
   *  StepRel. */
  ghost predicate Chain(s: seq<Module>, base: nat, flag: nat, d: Dict, e: Dict)
    decreases |s| - flag
  {
    if flag >= |s| then e == d
    else exists d1 :: StepRel(s, base, flag, d, d1) && Chain(s, base, flag + RunLen(s, flag), d1, e)
  }

  /** The rewrite at one run is related to the dictionary before it by
   *  StepRel. */
  lemma StepRelHolds(s: seq<Module>, base: nat, flag: nat, d: Dict)
    requires flag < |s| && DictValid(d)
    requires forall i :: flag <= i < |s| ==> s[i].id < base
    requires forall k :: k in d.prev ==> k < base + flag
    ensures StepRel(s, base, flag, d, ScanStep(s, flag, base + flag, d))
  {
    StepDictFacts(s, flag, base, d);
  }

  /** The scan's prev_list is reached run by run. */
  lemma {:induction false} ScanChain(s: seq<Module>, base: nat, flag: nat, d: Dict)
    requires flag <= |s| && DictValid(d)
    requires forall i :: flag <= i < |s| ==> s[i].id < base
    requires forall k :: k in d.prev ==> k < base + flag
    ensures Chain(s, base, flag, d, ScanDict(s, base, flag, d))
    decreases |s| - flag
  {
    if flag < |s| {
      var next, d1 := flag + RunLen(s, flag), ScanStep(s, flag, base + flag, d);
      StepRelHolds(s, base, flag, d);
      ScanChain(s, base, next, d1);
      ScanDictStep(s, base, flag, d, d1);
      ChainStep(s, base, flag, d, d1, ScanDict(s, base, flag, d));
    }
  }

  /** A step related by StepRel followed by a chain is a chain. */
  lemma ChainStep(s: seq<Module>, base: nat, flag: nat, d: Dict, d1: Dict, e: Dict)
    requires flag < |s| && StepRel(s, base, flag, d, d1)
    requires Chain(s, base, flag + RunLen(s, flag), d1, e)
    ensures Chain(s, base, flag, d, e)
  {
  }

  /** A chain keeps the order listing each key once. */
  lemma {:induction false} ChainValid(s: seq<Module>, base: nat, flag: nat, d: Dict, e: Dict)
    requires flag <= |s| && DictValid(d) && Chain(s, base, flag, d, e)
    ensures DictValid(e)
    decreases |s| - flag
  {
    if flag < |s| {
      var d1 :| StepRel(s, base, flag, d, d1) && Chain(s, base, flag + RunLen(s, flag), d1, e);
      ChainValid(s, base, flag + RunLen(s, flag), d1, e);
    }
  }

  /** A key survives a chain from flag only if no run absorbs it; the
   *  only new keys are folded modules. */
  lemma {:induction false} ChainKeys(s: seq<Module>, base: nat, flag: nat, d: Dict, e: Dict)
    requires flag <= |s| && Chain(s, base, flag, d, e)
    ensures KeysKept(e, d, AbsorbedFrom(s, flag), base + flag, base + |s|)
    decreases |s| - flag
  {
    if flag < |s| {
      var next := flag + RunLen(s, flag);
      var d1 :| StepRel(s, base, flag, d, d1) && Chain(s, base, next, d1, e);
      ChainKeys(s, base, next, d1, e);
      ComposeKeys(s, base, flag, next, d, d1, e);
    }
  }

  /** No entry a chain from flag leaves names a folded-away module or a
   *  module below base that no entry named before. */
  lemma {:induction false} ChainValues(s: seq<Module>, base: nat, flag: nat, d: Dict, e: Dict)
    requires flag <= |s| && Chain(s, base, flag, d, e)
    ensures ValuesKept(e, d, AbsorbedFrom(s, flag), base)
    decreases |s| - flag
  {
    if flag < |s| {
      var next := flag + RunLen(s, flag);
      var d1 :| StepRel(s, base, flag, d, d1) && Chain(s, base, next, d1, e);
      ChainValues(s, base, next, d1, e);
      ComposeValues(s, base, flag, next, d, d1, e);
    } else {
      assert forall k :: k in d.prev ==> d.prev[k] in d.prev.Values;
    }
  }

  /** The modules the scan from flag folds away are numbered below base. */
  lemma {:induction false} AbsorbedBelow(s: seq<Module>, base: nat, flag: nat)
    requires forall i :: flag <= i < |s| ==> s[i].id < base
    ensures Below(AbsorbedFrom(s, flag), base)
    decreases |s| - flag
  {
    if flag < |s| {
      AbsorbedBelow(s, base, flag + RunLen(s, flag));
    }
  }

  /** Every key a chain from flag keeps names the folded module in place
   *  of any module a run absorbed. */
  lemma {:induction false} ChainRedirects(s: seq<Module>, base: nat, flag: nat, d: Dict, e: Dict)
    requires flag <= |s| && Chain(s, base, flag, d, e)
    requires forall i :: flag <= i < |s| ==> s[i].id < base
    ensures RedirectedThrough(e, d, s, base, flag)
    decreases |s| - flag
  {
    if flag < |s| {
      var next := flag + RunLen(s, flag);
      var d1 :| StepRel(s, base, flag, d, d1) && Chain(s, base, next, d1, e);
      AbsorbedBelow(s, base, next);
      ChainRedirects(s, base, next, d1, e);
      ComposeRedirect(s, base, flag, next, d, d1, e);
    }
  }

  /** What the whole scan does to prev_list, from a dictionary whose keys
   *  all lie below base: the order still lists each key once; a key
   *  survives exactly when no run absorbs it, and the only new keys are
   *  folded modules; no entry names a folded-away module; and every
   *  surviving entry names the folded module in place of the module it
   *  absorbed. */
  lemma ScanFromStart(s: seq<Module>, base: nat, d: Dict, e: Dict)
    requires DictValid(d) && e == ScanDict(s, base, 0, d)
    requires forall i :: 0 <= i < |s| ==> s[i].id < base
    requires forall k :: k in d.prev ==> k < base
    ensures DictValid(e)
    ensures forall k :: k in e.prev ==> k in d.prev || base <= k < base + |s|
    ensures forall k :: k in AbsorbedFrom(s, 0) ==> k !in e.prev
    ensures forall k :: k in e.prev && e.prev[k].Some? ==> e.prev[k].value !in AbsorbedFrom(s, 0)
    ensures forall k :: k in d.prev && k !in AbsorbedFrom(s, 0) ==>
              k in e.prev && e.prev[k] == RedirectAll(d.prev[k], s, base, 0)
  {
    ScanChain(s, base, 0, d);
    AbsorbedBelow(s, base, 0);
    ChainValid(s, base, 0, d, e);
    ChainKeys(s, base, 0, d, e);
    ChainValues(s, base, 0, d, e);
    ChainRedirects(s, base, 0, d, e);
  }

  /** The scan moves from one chunk start to the next. */
  lemma NextBoundary(s: seq<Module>, flag: nat)
    requires flag < |s| && Boundary(s, flag)
    ensures Boundary(s, flag + RunLen(s, flag))
  {
  }

  /** The run that absorbs id starts at a chunk start. */
  lemma {:induction false} TargetRun(s: seq<Module>, base: nat, flag: nat, id: nat)
    requires flag <= |s| && Boundary(s, flag)
    requires FoldTarget(s, base, flag, id).Some?
    ensures var slot := FoldTarget(s, base, flag, id).value - base;
            slot < |s| && Boundary(s, slot) && id in Absorbed(s, slot)
    decreases |s| - flag
  {
    if id !in Absorbed(s, flag) {
      NextBoundary(s, flag);
      TargetRun(s, base, flag + RunLen(s, flag), id);
    }
  }

  /** Slot holds the folded module numbered base + slot, and id is the
   *  Conv it absorbed or the ReLU two slots on. */
  ghost predicate FoldsInto(s: seq<Module>, base: nat, slot: nat, id: nat)
  {
    && slot < |s|
    && FoldedAt(s, base, slot).id == base + slot
    && FoldedAt(s, base, slot).kind in {Conv2dBNReLUKind, Conv2dBNKind}
    && ((s[slot].kind == Conv2dKind && id == s[slot].id)
        || (slot + 2 < |s| && s[slot + 2].kind == ReLUKind && id == s[slot + 2].id))
  }

  /** A run at a chunk start folds its absorbed modules into the module
   *  created at its first slot. */
  lemma RunFolds(s: seq<Module>, base: nat, slot: nat, id: nat)
    requires slot < |s| && Boundary(s, slot) && id in Absorbed(s, slot)
    ensures FoldsInto(s, base, slot, id)
  {
    if RunLen(s, slot) == 3 {
      FoldedTriple(s, base, slot);
    } else {
      FoldedPair(s, base, slot);
    }
  }

  /** A module the scan folds away is the Conv, or the ReLU, of the run
   *  whose folded module takes its number: that slot holds a Conv2dBNReLU
   *  or Conv2dBN module numbered with the target. */
  lemma TargetFolded(s: seq<Module>, base: nat, id: nat)
    requires FoldTarget(s, base, 0, id).Some?
    ensures base <= FoldTarget(s, base, 0, id).value
    ensures FoldsInto(s, base, FoldTarget(s, base, 0, id).value - base, id)
  {
    TargetRun(s, base, 0, id);
    RunFolds(s, base, FoldTarget(s, base, 0, id).value - base, id);
  }

  /** A row whose slots from flag on agree with another row is scanned
   *  from flag as that row is. */
  lemma SameRun(s: seq<Module>, t: seq<Module>, flag: nat, folded: nat, d: Dict)
    requires |s| == |t| && flag < |s|
    requires forall i :: flag <= i < |s| ==> s[i] == t[i]
    ensures RunLen(s, flag) == RunLen(t, flag)
    ensures ScanStep(s, flag, folded, d) == ScanStep(t, flag, folded, d)
  {
    assert s[flag] == t[flag];
    assert flag + 1 < |s| ==> s[flag + 1] == t[flag + 1];
    assert flag + 2 < |s| ==> s[flag + 2] == t[flag + 2];
  }

  // ---------------------------------------------------------------------
  // PIM units
  // ---------------------------------------------------------------------

  /** A PIMUnit's target layers: the layer whose activation it quantizes
   *  and, for a mixed-signal unit, the layer that supplies its weight and
   *  bias. */
  datatype PimUnit = PimUnit(acti: nat, weight: Option<nat>, bias: Option<nat>)

  /** The predecessor types a ReLU or ShareQuant shares one unit with. */
  predicate Coupling(k: Kind)
  {
    k == Conv2dBNKind || k == Conv2dKind || k == LinearKind
  }

  /** The unit init_pim_units builds for node n: a three-role unit of its
   *  own for a folded Conv, BN, ReLU; for a ReLU or ShareQuant, a unit
   *  shared with a Conv2dBN, Conv2d or Linear predecessor, and an
   *  activation-only unit otherwise. Nodes outside prev_list get none. */
  function UnitFor(n: Module, prev: map<nat, Option<Module>>): (r: Option<PimUnit>)
    ensures r.Some? <==> n.id in prev && n.kind in {Conv2dBNReLUKind, ShareQuantKind, ReLUKind}
    ensures r.Some? ==> r.value.acti == n.id && r.value.weight == r.value.bias
    ensures r.Some? && n.kind == Conv2dBNReLUKind ==> r.value.weight == Some(n.id)
    ensures r.Some? && n.kind != Conv2dBNReLUKind ==>
              (r.value.weight.Some? <==> prev[n.id].Some? && Coupling(prev[n.id].value.kind))
              && (r.value.weight.Some? ==> r.value.weight.value == prev[n.id].value.id)
  {
    if n.id !in prev then None
    else if n.kind == Conv2dBNReLUKind then Some(PimUnit(n.id, Some(n.id), Some(n.id)))
    else if n.kind == ShareQuantKind || n.kind == ReLUKind then
      match prev[n.id]
      case Some(p) =>
        if Coupling(p.kind) then Some(PimUnit(n.id, Some(p.id), Some(p.id))) else Some(PimUnit(n.id, None, None))
      case None => Some(PimUnit(n.id, None, None))
    else None
  }

  /** set_pim_unit for node n: the node, and the layer holding the unit's
   *  weight, both hold the unit. */
  function AssignStep(units: map<nat, PimUnit>, n: Module, prev: map<nat, Option<Module>>): (r: map<nat, PimUnit>)
    ensures UnitFor(n, prev).None? ==> r == units
    ensures UnitFor(n, prev).Some? ==>
              var u := UnitFor(n, prev).value;
              && n.id in r && r[n.id] == u
              && (u.weight.Some? ==> u.weight.value in r && r[u.weight.value] == u)
              && (forall l :: l in r && l != n.id && Some(l) != u.weight ==> l in units && r[l] == units[l])
  {
    match UnitFor(n, prev)
    case None => units
    case Some(u) => if u.weight.Some? then units[n.id := u][u.weight.value := u] else units[n.id := u]
  }

  /** The units after init_pim_units visits nodes in order. */
  function Assign(nodes: seq<Module>, prev: map<nat, Option<Module>>, units: map<nat, PimUnit>): (r: map<nat, PimUnit>)
  {
    if nodes == [] then units
    else AssignStep(Assign(nodes[..|nodes| - 1], prev, units), nodes[|nodes| - 1], prev)
  }

  /** A unit fits the layer id that holds it: the layer is the unit's
   *  activation layer or its weight layer, weight and bias come from the
   *  same layer, and that layer is the activation layer itself or its
   *  Conv2dBN, Conv2d or Linear predecessor. */
  predicate Fits(id: nat, u: PimUnit, prev: map<nat, Option<Module>>)
  {
    && (id == u.acti || Some(id) == u.weight)
    && u.weight == u.bias
    && u.acti in prev
    && (u.weight.Some? ==>
          || u.weight.value == u.acti
          || (prev[u.acti].Some? && prev[u.acti].value.id == u.weight.value
              && Coupling(prev[u.acti].value.kind)))
  }

  /** Every node that needs a unit has one after the traversal, and no
   *  layer loses the unit it had. */
  lemma {:induction false} AssignCovers(nodes: seq<Module>, prev: map<nat, Option<Module>>, units: map<nat, PimUnit>)
    ensures forall i :: 0 <= i < |nodes| && UnitFor(nodes[i], prev).Some? ==> nodes[i].id in Assign(nodes, prev, units)
    ensures forall l :: l in units ==> l in Assign(nodes, prev, units)
  {
    if nodes != [] {
      var init := nodes[..|nodes| - 1];
      AssignCovers(init, prev, units);
      forall i | 0 <= i < |init| ensures init[i] == nodes[i] { }
    }
  }

  /** Every unit the traversal hands out fits the layer holding it; the
   *  other layers keep the unit they had. */
  lemma {:induction false} AssignFits(nodes: seq<Module>, prev: map<nat, Option<Module>>, units: map<nat, PimUnit>)
    ensures forall l :: l in Assign(nodes, prev, units) ==>
              (l in units && Assign(nodes, prev, units)[l] == units[l]) || Fits(l, Assign(nodes, prev, units)[l], prev)
  {
    if nodes != [] {
      AssignFits(nodes[..|nodes| - 1], prev, units);
    }
  }

  /** The PIM units attached to layers (set_pim_unit), by layer. */
  class PimAssignment {
    var unitOf: map<nat, PimUnit>

    constructor ()
      ensures unitOf == map[]
    {
      unitOf := map[];
    }

    /** init_pim_units over the nodes of the network in the order its
     *  recursion visits them. */
    method InitPimUnits(nodes: seq<Module>, prev: map<nat, Option<Module>>)
      modifies this
      ensures unitOf == Assign(nodes, prev, old(unitOf))
    {
      for i := 0 to |nodes|
        invariant unitOf == Assign(nodes[..i], prev, old(unitOf))
      {
        var n := nodes[i];
        assert nodes[..i + 1][..i] == nodes[..i];
        if n.id in prev {
          if n.kind == Conv2dBNReLUKind {
            var u := PimUnit(n.id, Some(n.id), Some(n.id));
            unitOf := unitOf[n.id := u];
          } else if n.kind == ShareQuantKind || n.kind == ReLUKind {
            var p := prev[n.id];
            // A Conv2dBN, Conv2d or Linear predecessor takes part in a
            // mixed-signal operation and holds the same unit.
            if p.Some? && Coupling(p.value.kind) {
              var u := PimUnit(n.id, Some(p.value.id), Some(p.value.id));
              unitOf := unitOf[n.id := u];
              unitOf := unitOf[p.value.id := u];
            } else {
              unitOf := unitOf[n.id := PimUnit(n.id, None, None)];
            }
          }
        }
      }
      assert nodes[..|nodes|] == nodes;
    }
  }
}
