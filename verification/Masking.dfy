/** Masking the sensitive fields of a request body before it is logged
    (backend/internal/middleware/audit.go:160-195). A decoded JSON body is a tree, so the maps
    and slices are modelled as values. How keys are lower-cased is a parameter: everything holds
    for any way of doing it. */
module Masking {
  import opened Common

  datatype Json =
    | Null
    | Bool(b: bool)
    | Number(n: real)
    | Text(s: string)
    | Object(fields: map<string, Json>)
    | Array(items: seq<Json>)

  const SENSITIVE := {"password", "old_password", "new_password", "token", "secret", "api_key"}
  const MASK := Text("******")

  predicate Sensitive(lower: string -> string, key: string) { lower(key) in SENSITIVE }

  function Mask(lower: string -> string, t: Json): Json
    decreases t
  {
    match t
    case Object(fields) => Object(map k | k in fields :: if Sensitive(lower, k) then MASK else Mask(lower, fields[k]))
    case Array(items) => Array(seq(|items|, i requires 0 <= i < |items| => Mask(lower, items[i])))
    case _ => t
  }

  function MaskField(lower: string -> string, key: string, value: Json): Json {
    if Sensitive(lower, key) then MASK else Mask(lower, value)
  }

  /** The fields with all but those of `rest` masked. */
  ghost function MaskedBut(lower: string -> string, data: map<string, Json>, rest: set<string>): map<string, Json> {
    map k | k in data :: if k in rest then data[k] else MaskField(lower, k, data[k])
  }

  lemma MaskedNext(lower: string -> string, data: map<string, Json>, rest: set<string>, key: string)
    requires key in data && key in rest
    ensures MaskedBut(lower, data, rest - {key})
            == MaskedBut(lower, data, rest)[key := MaskField(lower, key, data[key])]
  {
  }

  lemma NoneMasked(lower: string -> string, data: map<string, Json>)
    ensures MaskedBut(lower, data, data.Keys) == data
  {
  }

  lemma AllMasked(lower: string -> string, data: map<string, Json>)
    ensures Object(MaskedBut(lower, data, {})) == Mask(lower, Object(data))
  {
    var left, right := MaskedBut(lower, data, {}), Mask(lower, Object(data)).fields;
    assert left.Keys == right.Keys;
    assert left == right;
  }

  method MaskSensitiveFields(lower: string -> string, data: map<string, Json>) returns (masked: map<string, Json>)
    ensures Object(masked) == Mask(lower, Object(data))
    decreases Object(data), 0
  {
    masked := data;
    var rest := data.Keys;
    NoneMasked(lower, data);
    AllMasked(lower, data);
    while rest != {}
      invariant rest <= data.Keys && masked == MaskedBut(lower, data, rest)
      decreases |rest|
    {
      var key :| key in rest;
      MaskedNext(lower, data, rest, key);
      rest := rest - {key};
      var value := MASK;
      if !Sensitive(lower, key) {
        value := MaskValue(lower, data[key]);
      }
      masked := masked[key := value];
    }
  }

  method MaskSensitiveSlice(lower: string -> string, items: seq<Json>) returns (masked: seq<Json>)
    ensures Array(masked) == Mask(lower, Array(items))
    decreases Array(items), 0
  {
    masked := items;
    for i := 0 to |items|
      invariant |masked| == |items|
      invariant forall k | i <= k < |items| :: masked[k] == items[k]
      invariant forall k | 0 <= k < i :: masked[k] == Mask(lower, items[k])
    {
      var inner := MaskValue(lower, items[i]);
      masked := masked[i := inner];
    }
  }

  /** The type switch both loops end with. */
  method MaskValue(lower: string -> string, value: Json) returns (masked: Json)
    ensures masked == Mask(lower, value)
    decreases value, 1
  {
    masked := value;
    match value {
      case Object(fields) =>
        var inner := MaskSensitiveFields(lower, fields);
        masked := Object(inner);
      case Array(items) =>
        var inner := MaskSensitiveSlice(lower, items);
        masked := Array(inner);
      case _ =>
    }
  }

  // ---- Paths --------------------------------------------------------------------------------------

  datatype Step = Key(key: string) | Index(i: nat)

  /** The value at a path, if the tree has that path. */
  function At(t: Json, path: seq<Step>): Option<Json> {
    if path == [] then Some(t)
    else
      match (t, path[0])
      case (Object(fields), Key(k)) => if k in fields then At(fields[k], path[1..]) else None
      case (Array(items), Index(i)) => if i < |items| then At(items[i], path[1..]) else None
      case _ => None
  }

  predicate Hidden(lower: string -> string, path: seq<Step>) {
    exists i | 0 <= i < |path| :: path[i].Key? && Sensitive(lower, path[i].key)
  }

  /** The same leaf, or an object with the same keys, or an array of the same length. */
  predicate SameShape(a: Json, b: Json) {
    match (a, b)
    case (Object(f), Object(g)) => f.Keys == g.Keys
    case (Array(x), Array(y)) => |x| == |y|
    case _ => a == b
  }

  lemma HiddenSplits(lower: string -> string, front: seq<Step>, rest: seq<Step>)
    ensures Hidden(lower, front + rest) <==> Hidden(lower, front) || Hidden(lower, rest)
  {
    var path := front + rest;
    if i :| 0 <= i < |front| && front[i].Key? && Sensitive(lower, front[i].key) {
      assert path[i] == front[i];
    }
    if i :| 0 <= i < |rest| && rest[i].Key? && Sensitive(lower, rest[i].key) {
      assert path[|front| + i] == rest[i];
    }
  }

  lemma {:induction false} MaskedAt(lower: string -> string, t: Json, path: seq<Step>)
    requires !Hidden(lower, path)
    ensures At(Mask(lower, t), path) == if At(t, path).Some? then Some(Mask(lower, At(t, path).value)) else None
    decreases path
  {
    if path != [] {
      HiddenSplits(lower, [path[0]], path[1..]);
      assert path == [path[0]] + path[1..];
      match (t, path[0])
      case (Object(fields), Key(k)) => if k in fields { MaskedAt(lower, fields[k], path[1..]); }
      case (Array(items), Index(i)) => if i < |items| { MaskedAt(lower, items[i], path[1..]); }
      case _ =>
    }
  }

  lemma {:induction false} AtExtends(t: Json, path: seq<Step>, step: Step)
    ensures At(t, path + [step]) == match At(t, path) case Some(v) => At(v, [step]) case None => None
    decreases path
  {
    if path != [] {
      assert (path + [step])[1..] == path[1..] + [step];
      match (t, path[0])
      case (Object(fields), Key(k)) => if k in fields { AtExtends(fields[k], path[1..], step); }
      case (Array(items), Index(i)) => if i < |items| { AtExtends(items[i], path[1..], step); }
      case _ =>
    } else {
      assert path + [step] == [step];
    }
  }

  /** Outside masked values nothing moves: a path with no sensitive key leads to a value of the
      same shape as before, or to nothing as before. */
  lemma RestIsUnchanged(lower: string -> string, t: Json, path: seq<Step>)
    requires !Hidden(lower, path)
    ensures At(Mask(lower, t), path).Some? <==> At(t, path).Some?
    ensures At(t, path).Some? ==> SameShape(At(t, path).value, At(Mask(lower, t), path).value)
  {
    MaskedAt(lower, t, path);
  }

  /** Behind every sensitive key, at any depth, there is the mask and nothing else. */
  lemma SensitiveIsMasked(lower: string -> string, t: Json, path: seq<Step>, key: string)
    requires Sensitive(lower, key) && !Hidden(lower, path)
    ensures At(Mask(lower, t), path + [Key(key)]) == if At(t, path + [Key(key)]).Some? then Some(MASK) else None
  {
    MaskedAt(lower, t, path);
    AtExtends(t, path, Key(key));
    AtExtends(Mask(lower, t), path, Key(key));
  }

  /** Splits a path at its first sensitive key. */
  lemma {:induction false} FirstHidden(lower: string -> string, path: seq<Step>)
      returns (front: seq<Step>, key: string, rest: seq<Step>)
    requires Hidden(lower, path)
    ensures path == (front + [Key(key)]) + rest
    ensures Sensitive(lower, key) && !Hidden(lower, front)
    decreases path
  {
    if path[0].Key? && Sensitive(lower, path[0].key) {
      front, key, rest := [], path[0].key, path[1..];
    } else {
      assert path == [path[0]] + path[1..];
      HiddenSplits(lower, [path[0]], path[1..]);
      var inner;
      inner, key, rest := FirstHidden(lower, path[1..]);
      front := [path[0]] + inner;
      HiddenSplits(lower, [path[0]], inner);
      assert front + [Key(key)] == [path[0]] + (inner + [Key(key)]);
    }
  }

  lemma EndsAtMask(lower: string -> string, t: Json, front: seq<Step>, key: string, rest: seq<Step>)
    requires Sensitive(lower, key) && !Hidden(lower, front)
    ensures At(Mask(lower, t), (front + [Key(key)]) + rest).Some? ==>
              rest == [] && At(Mask(lower, t), (front + [Key(key)]) + rest).value == MASK
  {
    SensitiveIsMasked(lower, t, front, key);
    AtThrough(Mask(lower, t), front + [Key(key)], rest);
    LeafHasNoPaths(rest);
  }

  /** Complete: whatever a path through the masked tree reaches, it passed a sensitive key only
      if that was its last step, and then it reached the mask. */
  lemma NothingLeaks(lower: string -> string, t: Json, path: seq<Step>)
    requires Hidden(lower, path) && At(Mask(lower, t), path).Some?
    ensures At(Mask(lower, t), path).value == MASK && !Hidden(lower, path[..|path| - 1])
  {
    var front, key, rest := FirstHidden(lower, path);
    EndsAtMask(lower, t, front, key, rest);
    assert path[..|path| - 1] == front;
  }

  lemma LeafHasNoPaths(path: seq<Step>)
    ensures At(MASK, path).Some? <==> path == []
  {
    if path != [] {
      assert At(MASK, path) == None;
    }
  }

  lemma {:induction false} AtThrough(t: Json, front: seq<Step>, rest: seq<Step>)
    ensures At(t, front + rest) == match At(t, front) case Some(v) => At(v, rest) case None => None
    decreases front
  {
    if front == [] {
      assert front + rest == rest;
    } else {
      assert (front + rest)[1..] == front[1..] + rest;
      match (t, front[0])
      case (Object(fields), Key(k)) => if k in fields { AtThrough(fields[k], front[1..], rest); }
      case (Array(items), Index(i)) => if i < |items| { AtThrough(items[i], front[1..], rest); }
      case _ =>
    }
  }

  // ---- Fixpoints -------------------------------------------------------------------------------------

  /** Masking again changes nothing. */
  lemma {:induction false} MaskTwice(lower: string -> string, t: Json)
    ensures Mask(lower, Mask(lower, t)) == Mask(lower, t)
    decreases t
  {
    match t
    case Object(fields) =>
      forall k | k in fields && !Sensitive(lower, k)
        ensures Mask(lower, Mask(lower, fields[k])) == Mask(lower, fields[k])
      {
        MaskTwice(lower, fields[k]);
      }
      var once := Mask(lower, t);
      assert Mask(lower, once).fields.Keys == once.fields.Keys;
      assert forall k | k in once.fields :: Mask(lower, once).fields[k] == once.fields[k];
    case Array(items) =>
      forall i | 0 <= i < |items| ensures Mask(lower, Mask(lower, items[i])) == Mask(lower, items[i]) {
        MaskTwice(lower, items[i]);
      }
      var once := Mask(lower, t);
      assert forall i | 0 <= i < |items| :: Mask(lower, once).items[i] == once.items[i];
    case _ =>
  }

  /** Every sensitive key of the tree already holds the mask. */
  ghost predicate Clean(lower: string -> string, t: Json) {
    forall path: seq<Step>, key: string
      | Sensitive(lower, key) && !Hidden(lower, path) && At(t, path + [Key(key)]).Some? ::
      At(t, path + [Key(key)]).value == MASK
  }

  lemma {:induction false} CleanChild(lower: string -> string, t: Json, step: Step)
    requires Clean(lower, t) && At(t, [step]).Some? && !Hidden(lower, [step])
    ensures Clean(lower, At(t, [step]).value)
  {
    var child := At(t, [step]).value;
    forall path: seq<Step>, key: string
      | Sensitive(lower, key) && !Hidden(lower, path) && At(child, path + [Key(key)]).Some?
      ensures At(child, path + [Key(key)]).value == MASK
    {
      var longer := [step] + path;
      AtThrough(t, [step], path + [Key(key)]);
      assert longer + [Key(key)] == [step] + (path + [Key(key)]);
      HiddenSplits(lower, [step], path);
      assert At(t, longer + [Key(key)]).value == MASK;
    }
  }

  lemma {:induction false} CleanStays(lower: string -> string, t: Json)
    requires Clean(lower, t)
    ensures Mask(lower, t) == t
    decreases t
  {
    match t
    case Object(fields) =>
      forall k | k in fields ensures Mask(lower, t).fields[k] == fields[k] {
        if Sensitive(lower, k) {
          var root: seq<Step> := [];
          assert root + [Key(k)] == [Key(k)];
          assert At(t, [Key(k)]) == Some(fields[k]);
          assert !Hidden(lower, root) && At(t, root + [Key(k)]).value == MASK;
        } else {
          assert At(t, [Key(k)]) == Some(fields[k]);
          CleanChild(lower, t, Key(k));
          CleanStays(lower, fields[k]);
        }
      }
    case Array(items) =>
      forall i | 0 <= i < |items| ensures Mask(lower, t).items[i] == items[i] {
        assert At(t, [Index(i)]) == Some(items[i]);
        CleanChild(lower, t, Index(i));
        CleanStays(lower, items[i]);
      }
    case _ =>
  }

  /** Masking leaves a tree alone exactly when there is nothing left to hide in it. */
  lemma UnchangedIffClean(lower: string -> string, t: Json)
    ensures Mask(lower, t) == t <==> Clean(lower, t)
  {
    if Mask(lower, t) == t {
      forall path: seq<Step>, key: string
        | Sensitive(lower, key) && !Hidden(lower, path) && At(t, path + [Key(key)]).Some?
        ensures At(t, path + [Key(key)]).value == MASK
      {
        SensitiveIsMasked(lower, t, path, key);
      }
    } else if Clean(lower, t) {
      CleanStays(lower, t);
      assert false;
    }
  }

  // ---- Masking, written out -------------------------------------------------------------------------

  /** An object keeps its keys; behind six of them, in whatever case, stands the mask, and any other
      value is masked in turn. An array keeps its places, and everything else stays. */
  lemma MaskOf(lower: string -> string, t: Json)
    ensures match t
            case Object(fields) =>
              && Mask(lower, t).Object? && Mask(lower, t).fields.Keys == fields.Keys
              && forall k <- fields ::
                   Mask(lower, t).fields[k] == if || lower(k) == "password" || lower(k) == "old_password"
                                                  || lower(k) == "new_password" || lower(k) == "token"
                                                  || lower(k) == "secret" || lower(k) == "api_key"
                                               then Text("******") else Mask(lower, fields[k])
            case Array(items) =>
              && Mask(lower, t).Array? && |Mask(lower, t).items| == |items|
              && forall i | 0 <= i < |items| :: Mask(lower, t).items[i] == Mask(lower, items[i])
            case _ => Mask(lower, t) == t
  {
  }
}
