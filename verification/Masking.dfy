/** The response masking that hides client data from mechanics, over the values handlers
    return: JSON, and the dates and decimals of database rows that are not text yet. */
module Masking {
  import opened Common

  /** A property key: an array index, or any other name. */
  datatype Key = Index(i: nat) | Name(name: string)

  datatype Json =
    | Null
    | Bool(b: bool)
    | Number(n: real)
    | Text(s: string)
    | Date(ms: int)
    | Instance(own: map<Key, Json>)
    | Arr(items: seq<Json>)
    | Obj(fields: map<Key, Json>)

  /** A decimal column: an object of a class, whose own properties are sign, exponent and digits. */
  function Decimal(sign: int, exponent: int, digits: seq<nat>): Json {
    Instance(map[
      Name("s") := Number(sign as real),
      Name("e") := Number(exponent as real),
      Name("d") := Arr(seq(|digits|, i requires 0 <= i < |digits| => Number(digits[i] as real)))])
  }

  const CLIENT: Key := Name("client")

  const MASKED_FIELDS: seq<Key> :=
    [Name("phone"), Name("email"), Name("address"), Name("dni"), Name("ruc"), Name("phone2"),
     Name("creditLimit"), Name("creditBalance")]

  predicate Truthy(j: Json) {
    match j
    case Null => false
    case Bool(b) => b
    case Number(n) => n != 0.0
    case Text(s) => s != ""
    case _ => true
  }

  predicate IsObject(j: Json) {
    j.Arr? || j.Obj? || j.Date? || j.Instance?
  }

  function IndexKeys(n: nat): (keys: set<Key>)
    ensures forall k :: k in keys <==> k.Index? && k.i < n
  {
    set i | 0 <= i < n :: Index(i)
  }

  /** What { ...j } copies: the own properties of objects, arrays and strings. A date has none. */
  function Spread(j: Json): map<Key, Json> {
    match j
    case Obj(fields) => fields
    case Instance(own) => own
    case Arr(items) => map k | k in IndexKeys(|items|) :: items[k.i]
    case Text(s) => map k | k in IndexKeys(|s|) :: Text([s[k.i]])
    case _ => map[]
  }

  /** The masked value. Of a truthy client the masked fields are dropped first. */
  function Mask(j: Json): Json
    decreases j, 0
  {
    match j
    case Arr(items) => Arr(seq(|items|, i requires 0 <= i < |items| => Mask(items[i])))
    case Obj(fields) => Obj(map k | k in fields :: MaskField(k, fields[k]))
    case Instance(own) => Obj(map k | k in own :: MaskField(k, own[k]))
    case Date(_) => Obj(map[])
    case _ => j
  }

  function MaskField(k: Key, v: Json): Json
    decreases v, 1
  {
    if k != CLIENT || !Truthy(v) then Mask(v)
    else
      match v
      case Obj(fields) => Obj(map f | f in fields && f !in MASKED_FIELDS :: MaskField(f, fields[f]))
      case Instance(own) => Obj(map f | f in own && f !in MASKED_FIELDS :: MaskField(f, own[f]))
      case Arr(items) => Obj(map i | i in IndexKeys(|items|) :: Mask(items[i.i]))
      case Text(s) => Obj(Spread(v))
      case _ => Obj(map[])
  }

  /** The value that is masked recursively in the place of a field. */
  function Cleaned(k: Key, v: Json): Json {
    if k == CLIENT && Truthy(v) then Obj(map f | f in Spread(v) && f !in MASKED_FIELDS :: Spread(v)[f]) else v
  }

  lemma MaskFieldCleans(k: Key, v: Json)
    ensures MaskField(k, v) == Mask(Cleaned(k, v))
  {
    if k == CLIENT && Truthy(v) {
      if v.Obj? || v.Instance? {
        ObjectCleans(v);
      } else {
        OtherCleans(v);
      }
    }
  }

  lemma ObjectCleans(v: Json)
    requires v.Obj? || v.Instance?
    ensures MaskField(CLIENT, v) == Mask(Cleaned(CLIENT, v))
  {
    var cleaned, own := Cleaned(CLIENT, v).fields, if v.Obj? then v.fields else v.own;
    assert cleaned == map f | f in own && f !in MASKED_FIELDS :: own[f];
  }

  lemma OtherCleans(v: Json)
    requires Truthy(v) && !v.Obj? && !v.Instance?
    ensures MaskField(CLIENT, v) == Mask(Cleaned(CLIENT, v))
  {
    var spread := Spread(v);
    forall f | f in spread ensures f !in MASKED_FIELDS && MaskField(f, spread[f]) == Mask(spread[f]) {
      assert f.Index?;
    }
    assert Cleaned(CLIENT, v) == Obj(spread);
    hide Cleaned;
    SpreadMasks(v, spread);
  }

  lemma SpreadMasks(v: Json, spread: map<Key, Json>)
    requires Truthy(v) && !v.Obj? && !v.Instance? && spread == Spread(v)
    requires forall f :: f in spread ==> MaskField(f, spread[f]) == Mask(spread[f])
    ensures MaskField(CLIENT, v) == Mask(Obj(spread))
  {
  }

  // ---- The recursive procedure ----

  method DropFields(fields: map<Key, Json>, names: seq<Key>) returns (kept: map<Key, Json>)
    ensures kept == map f | f in fields && f !in names :: fields[f]
  {
    kept := fields;
    for i := 0 to |names|
      invariant kept == map f | f in fields && f !in names[..i] :: fields[f]
    {
      kept := kept - {names[i]};
    }
    assert names[..|names|] == names;
  }

  lemma SpreadIsInside(k: Key, v: Json)
    requires k == CLIENT && Truthy(v)
    ensures Cleaned(k, v).Obj?
    ensures var m := Cleaned(k, v).fields;
            if IsObject(v) then forall f :: f in m && IsObject(m[f]) ==> m[f] < v
            else forall f :: f in m ==> f.Index? && !IsObject(m[f])
  {
  }

  lemma MaskByKind(j: Json)
    ensures !IsObject(j) ==> Mask(j) == j
    ensures j.Obj? ==> Mask(j) == Obj(map k | k in j.fields :: MaskField(k, j.fields[k]))
    ensures j.Instance? ==> Mask(j) == Obj(map k | k in j.own :: MaskField(k, j.own[k]))
    ensures j.Date? ==> Mask(j) == Obj(map[])
  {
  }

  method CleanClient(fields: map<Key, Json>) returns (masked: map<Key, Json>)
    ensures masked == map k | k in fields :: Cleaned(k, fields[k])
  {
    hide Spread;
    masked := fields;
    if CLIENT in masked && Truthy(masked[CLIENT]) {
      var client := DropFields(Spread(masked[CLIENT]), MASKED_FIELDS);
      masked := masked[CLIENT := Obj(client)];
    }
  }

  /** Spreads, deletes and reassigns in place on fresh copies, as the interceptor does. The
      ghost owner bounds the nesting. */
  method MaskFields(fields: map<Key, Json>, ghost owner: Json) returns (masked: map<Key, Json>)
    requires forall k :: k in fields && IsObject(fields[k]) ==> fields[k] < owner
    ensures masked == map k | k in fields :: MaskField(k, fields[k])
    decreases owner, if CLIENT in fields then 3 else 1
  {
    hide Mask, MaskField, Cleaned, IsObject;
    masked := CleanClient(fields);
    var keys := masked.Keys;
    while keys != {}
      invariant keys <= masked.Keys == fields.Keys
      invariant forall k :: k in fields ==>
                  masked[k] == if k in keys then Cleaned(k, fields[k]) else MaskField(k, fields[k])
      decreases |keys|
    {
      var k :| k in keys;
      var value := MaskValue(k, fields[k], masked[k], owner);
      masked := masked[k := value];
      keys := keys - {k};
    }
  }

  /** The recursive call on one property, after a truthy client has been cleaned. */
  method MaskValue(k: Key, ghost v: Json, cleaned: Json, ghost owner: Json) returns (masked: Json)
    requires cleaned == Cleaned(k, v)
    requires IsObject(v) ==> v < owner
    ensures masked == MaskField(k, v)
    decreases owner, if k == CLIENT then 2 else 0
  {
    MaskFieldCleans(k, v);
    MaskByKind(cleaned);
    if !IsObject(cleaned) { return cleaned; }
    if k == CLIENT && cleaned.Obj? {
      if Truthy(v) { SpreadIsInside(k, v); }
      var fields := MaskFields(cleaned.fields, if IsObject(v) then v else owner);
      masked := Obj(fields);
    } else {
      masked := MaskObject(cleaned);
    }
  }

  method MaskObject(j: Json) returns (masked: Json)
    ensures masked == Mask(j)
    decreases j, 4
  {
    if !IsObject(j) { return j; }
    if j.Arr? {
      var items: seq<Json> := [];
      for i := 0 to |j.items|
        invariant items == seq(i, k requires 0 <= k < i => Mask(j.items[k]))
      {
        var item := MaskObject(j.items[i]);
        items := items + [item];
      }
      return Arr(items);
    }
    var fields := MaskFields(Spread(j), j);
    MaskByKind(j);
    masked := Obj(fields);
  }

  // ---- What masking hides, and what it keeps ----

  /** The value a path of keys leads to. */
  function Lookup(j: Json, path: seq<Key>): Option<Json> {
    if |path| == 0 then Some(j)
    else if path[0] in Spread(j) && IsObject(j) then Lookup(Spread(j)[path[0]], path[1..])
    else None
  }

  /** A path through a masked field directly under some client. */
  ghost predicate Sensitive(path: seq<Key>) {
    exists i :: 0 <= i < |path| - 1 && path[i] == CLIENT && path[i + 1] in MASKED_FIELDS
  }

  lemma SensitiveTail(path: seq<Key>)
    requires |path| > 0
    ensures Sensitive(path) <==> Sensitive(path[1..]) || (|path| > 1 && path[0] == CLIENT && path[1] in MASKED_FIELDS)
  {
    if Sensitive(path) {
      var i :| 0 <= i < |path| - 1 && path[i] == CLIENT && path[i + 1] in MASKED_FIELDS;
      assert i > 0 ==> path[1..][i - 1] == CLIENT && path[1..][i] in MASKED_FIELDS;
    }
    if Sensitive(path[1..]) {
      var i :| 0 <= i < |path[1..]| - 1 && path[1..][i] == CLIENT && path[1..][i + 1] in MASKED_FIELDS;
      assert path[i + 1] == CLIENT && path[i + 2] in MASKED_FIELDS;
    }
  }

  /** One step into a masked value. */
  lemma MaskedChild(j: Json, k: Key)
    requires IsObject(j)
    ensures k in Spread(Mask(j)) <==> k in Spread(j)
    ensures k in Spread(j) ==> Spread(Mask(j))[k] == Mask(Cleaned(k, Spread(j)[k]))
  {
    if k in Spread(j) {
      MaskFieldCleans(k, Spread(j)[k]);
    }
    if j.Arr? {
      assert k in Spread(j) ==> k.Index?;
      hide MaskField;
    } else {
      MaskByKind(j);
      hide Mask, MaskField, Cleaned;
    }
  }

  /** For every JSON value at all: no path through a masked field of a client survives. */
  lemma {:induction false} SensitivePathsAreGone(j: Json, path: seq<Key>)
    requires Sensitive(path)
    ensures Lookup(Mask(j), path) == None
    decreases |path|
  {
    SensitiveTail(path);
    if IsObject(j) && path[0] in Spread(j) {
      var k := path[0];
      MaskedChild(j, k);
      var child := Cleaned(k, Spread(j)[k]);
      if Sensitive(path[1..]) {
        SensitivePathsAreGone(child, path[1..]);
      } else if IsObject(child) {
        MaskedChild(child, path[1]);
      }
    }
  }

  /** Of what stays in sight, nothing is a date or a decimal and every truthy client is an
      object. */
  ghost predicate Plain(j: Json)
    decreases j, 0
  {
    match j
    case Arr(items) => forall i :: 0 <= i < |items| ==> Plain(items[i])
    case Obj(fields) => forall k :: k in fields ==> PlainField(k, fields[k])
    case Date(_) => false
    case Instance(_) => false
    case _ => true
  }

  ghost predicate PlainField(k: Key, v: Json)
    decreases v, 1
  {
    if k != CLIENT || !Truthy(v) then Plain(v)
    else v.Obj? && forall f :: f in v.fields && f !in MASKED_FIELDS ==> PlainField(f, v.fields[f])
  }

  /** Same kind of value: equal scalars, arrays of one length, or two objects. */
  ghost predicate SameShape(a: Option<Json>, b: Option<Json>) {
    match (a, b)
    case (None, None) => true
    case (Some(Obj(_)), Some(Obj(_))) => true
    case (Some(Arr(x)), Some(Arr(y))) => |x| == |y|
    case (Some(x), Some(y)) => x == y && !x.Arr? && !x.Obj?
    case _ => false
  }

  lemma {:induction false} OtherPathsAreKept(j: Json, path: seq<Key>)
    requires Plain(j) && !Sensitive(path)
    ensures SameShape(Lookup(j, path), Lookup(Mask(j), path))
    decreases |path|
  {
    if |path| > 0 && IsObject(j) {
      var k, rest := path[0], path[1..];
      SensitiveTail(path);
      MaskedChild(j, k);
      if k in Spread(j) {
        var v := Spread(j)[k];
        var child := Cleaned(k, v);
        PlainChild(j, k);
        OtherPathsAreKept(child, rest);
        assert Lookup(Mask(j), path) == Lookup(Mask(child), rest);
        assert SameShape(Lookup(v, rest), Lookup(child, rest)) by { CleanedKeeps(k, v, rest); }
      }
    }
  }

  /** Cleaning an object only takes away what the sensitive paths go through. */
  lemma CleanedKeeps(k: Key, v: Json, rest: seq<Key>)
    requires !(k == CLIENT && |rest| > 0 && rest[0] in MASKED_FIELDS)
    requires Cleaned(k, v) != v ==> v.Obj?
    ensures |rest| > 0 ==> Lookup(v, rest) == Lookup(Cleaned(k, v), rest)
    ensures |rest| == 0 ==> SameShape(Some(v), Some(Cleaned(k, v)))
  {
  }

  /** Whatever the response holds, dates and decimals included: every scalar stays where it was,
      unless a masked field is on the way or the scalar itself stands for a client. */
  lemma {:induction false} ScalarsSurvive(j: Json, path: seq<Key>)
    requires !Sensitive(path)
    requires var found := Lookup(j, path);
             found.Some? && !IsObject(found.value) && (Truthy(found.value) && |path| > 0 ==> path[|path| - 1] != CLIENT)
    ensures Lookup(Mask(j), path) == Lookup(j, path)
    decreases |path|
  {
    if |path| > 0 {
      var k, rest := path[0], path[1..];
      var child := Cleaned(k, Spread(j)[k]);
      SensitiveTail(path);
      MaskedChild(j, k);
      CleanedIsSearched(k, Spread(j)[k], rest);
      ScalarsSurvive(child, rest);
      hide Mask;
    }
  }

  /** Cleaning takes nothing from a path that reaches a scalar beyond the client. */
  lemma CleanedIsSearched(k: Key, v: Json, rest: seq<Key>)
    requires !(k == CLIENT && |rest| > 0 && rest[0] in MASKED_FIELDS)
    requires |rest| == 0 ==> k != CLIENT || !Truthy(v)
    requires |rest| > 0 ==> Lookup(v, rest).Some?
    ensures Lookup(Cleaned(k, v), rest) == Lookup(v, rest)
  {
  }

  lemma PlainChild(j: Json, k: Key)
    requires Plain(j) && IsObject(j) && k in Spread(j)
    ensures Plain(Cleaned(k, Spread(j)[k]))
    ensures Cleaned(k, Spread(j)[k]) != Spread(j)[k] ==> Spread(j)[k].Obj?
  {
    var v := Spread(j)[k];
    match j
    case Arr(items) =>
      assert k.Index? && v == items[k.i] && Plain(items[k.i]);
    case Obj(fields) =>
      assert PlainField(k, v);
  }

  /** A date is turned into an empty object, a decimal into its parts, and a client that is an
      array, a text, a number or true into an object: a path that shows the difference. */
  lemma {:induction false} DamagedPath(j: Json) returns (path: seq<Key>)
    requires !Plain(j)
    ensures !Sensitive(path) && !SameShape(Lookup(j, path), Lookup(Mask(j), path))
    decreases j, 0
  {
    match j
    case Arr(items) =>
      var i :| 0 <= i < |items| && !Plain(items[i]);
      var rest := DamagedPath(items[i]);
      path := [Index(i)] + rest;
      SensitiveTail(path);
      assert path[1..] == rest;
      assert Index(i) in Spread(j) && Index(i) in Spread(Mask(j));
      assert Spread(j)[Index(i)] == items[i] && Spread(Mask(j))[Index(i)] == Mask(items[i]);
    case Date(_) =>
      path := [];
    case Instance(_) =>
      path := [];
    case Obj(fields) =>
      var k :| k in fields && !PlainField(k, fields[k]);
      var rest := DamagedField(k, fields[k]);
      path := [k] + rest;
      assert path[1..] == rest;
      assert Spread(Mask(j))[k] == MaskField(k, fields[k]);
  }

  lemma {:induction false} DamagedField(k: Key, v: Json) returns (path: seq<Key>)
    requires !PlainField(k, v)
    ensures !Sensitive([k] + path)
    ensures !SameShape(Lookup(v, path), Lookup(MaskField(k, v), path))
    decreases v, 1
  {
    if k != CLIENT || !Truthy(v) {
      path := DamagedPath(v);
      SensitiveTail([k] + path);
      assert ([k] + path)[1..] == path;
      ChangedIsTruthy(v, path);
    } else if v.Obj? {
      var f :| f in v.fields && f !in MASKED_FIELDS && !PlainField(f, v.fields[f]);
      var rest := DamagedField(f, v.fields[f]);
      path := [f] + rest;
      SensitiveTail([k] + path);
      assert ([k] + path)[1..] == path && path[1..] == rest;
      assert Spread(MaskField(k, v))[f] == MaskField(f, v.fields[f]);
    } else {
      path := [];
      SensitiveTail([k]);
    }
  }

  /** Only objects and arrays are ever changed. */
  lemma ChangedIsTruthy(v: Json, path: seq<Key>)
    requires !SameShape(Lookup(v, path), Lookup(Mask(v), path))
    ensures Truthy(v)
  {
    MaskByKind(v);
  }

  /** Masking leaves every other path as it was exactly when no date or decimal is in sight and
      each truthy client in sight is an object. */
  lemma KeepsTheRestIffPlain(j: Json)
    ensures Plain(j) <==> forall path :: !Sensitive(path) ==> SameShape(Lookup(j, path), Lookup(Mask(j), path))
  {
    if Plain(j) {
      forall path | !Sensitive(path) ensures SameShape(Lookup(j, path), Lookup(Mask(j), path)) {
        OtherPathsAreKept(j, path);
      }
    } else {
      var path := DamagedPath(j);
      assert !SameShape(Lookup(j, path), Lookup(Mask(j), path));
    }
  }

  /** A decimal column comes out as a plain object of its parts: whatever the value, no
      longer that value. */
  lemma DecimalsComeApart(sign: int, exponent: int, digits: seq<nat>)
    ensures var masked := Mask(Decimal(sign, exponent, digits));
            && masked.Obj? && masked.fields == Decimal(sign, exponent, digits).own
            && !SameShape(Some(Decimal(sign, exponent, digits)), Some(masked))
  {
    var own := Decimal(sign, exponent, digits).own;
    var d := own[Name("d")];
    assert Mask(d) == d;
    forall k | k in own ensures MaskField(k, own[k]) == own[k] {
      assert k != CLIENT by {
        assert k in {Name("s"), Name("e"), Name("d")};
        assert CLIENT.name[0] == 'c';
      }
    }
  }

  /** Masking twice is masking once, whatever the value. */
  lemma {:induction false} MaskIdempotent(j: Json)
    ensures Mask(Mask(j)) == Mask(j)
    decreases j, 0
  {
    match j
    case Arr(items) =>
      forall i | 0 <= i < |items| ensures Mask(Mask(items[i])) == Mask(items[i]) { MaskIdempotent(items[i]); }
    case Obj(fields) =>
      forall k | k in fields ensures MaskField(k, MaskField(k, fields[k])) == MaskField(k, fields[k]) {
        MaskFieldIdempotent(k, fields[k]);
      }
    case Instance(own) =>
      forall k | k in own ensures MaskField(k, MaskField(k, own[k])) == MaskField(k, own[k]) {
        MaskFieldIdempotent(k, own[k]);
      }
    case _ =>
  }

  lemma {:induction false} MaskFieldIdempotent(k: Key, v: Json)
    ensures MaskField(k, MaskField(k, v)) == MaskField(k, v)
    decreases v, 1
  {
    if k != CLIENT || !Truthy(v) {
      MaskIdempotent(v);
    } else {
      match v
      case Arr(items) =>
        forall i | 0 <= i < |items| ensures Mask(Mask(items[i])) == Mask(items[i]) { MaskIdempotent(items[i]); }
        IndexedClient(MaskField(k, v).fields);
      case Obj(fields) =>
        forall f | f in fields ensures MaskField(f, MaskField(f, fields[f])) == MaskField(f, fields[f]) {
          MaskFieldIdempotent(f, fields[f]);
        }
      case Instance(own) =>
        forall f | f in own ensures MaskField(f, MaskField(f, own[f])) == MaskField(f, own[f]) {
          MaskFieldIdempotent(f, own[f]);
        }
      case Text(s) =>
        IndexedClient(Spread(v));
      case _ =>
    }
  }

  lemma IndexedClient(fields: map<Key, Json>)
    requires forall k :: k in fields ==> k.Index? && Mask(fields[k]) == fields[k]
    ensures MaskField(CLIENT, Obj(fields)) == Obj(fields)
  {
    forall k | k in fields ensures k !in MASKED_FIELDS && MaskField(k, fields[k]) == fields[k] {
    }
  }

  // ---- By name ----

  /** Wherever a response holds a client, none of these fields is left under it. */
  lemma ClientDataIsGone(j: Json, path: seq<Key>, field: string)
    requires field in {"phone", "email", "address", "dni", "ruc", "phone2", "creditLimit", "creditBalance"}
    ensures Lookup(Mask(j), path + [Name("client"), Name(field)]) == None
  {
    var full := path + [Name("client"), Name(field)];
    assert full[|path|] == CLIENT && full[|path| + 1] in MASKED_FIELDS by { NamesAreMasked(field); }
    assert Sensitive(full);
    SensitivePathsAreGone(j, full);
  }

  lemma NamesAreMasked(field: string)
    requires field in {"phone", "email", "address", "dni", "ruc", "phone2", "creditLimit", "creditBalance"}
    ensures Name(field) in MASKED_FIELDS
  {
    assert MASKED_FIELDS[0] == Name("phone") && MASKED_FIELDS[1] == Name("email");
    assert MASKED_FIELDS[2] == Name("address") && MASKED_FIELDS[3] == Name("dni");
    assert MASKED_FIELDS[4] == Name("ruc") && MASKED_FIELDS[5] == Name("phone2");
    assert MASKED_FIELDS[6] == Name("creditLimit") && MASKED_FIELDS[7] == Name("creditBalance");
  }

  /** And nothing else is: a field of another name under a client keeps a scalar that it holds. */
  lemma OtherClientDataStays(j: Json, path: seq<Key>, field: string)
    requires field !in {"phone", "email", "address", "dni", "ruc", "phone2", "creditLimit", "creditBalance", "client"}
    requires !Sensitive(path + [Name("client")])
    requires var found := Lookup(j, path + [Name("client"), Name(field)]); found.Some? && !IsObject(found.value)
    ensures Lookup(Mask(j), path + [Name("client"), Name(field)]) == Lookup(j, path + [Name("client"), Name(field)])
  {
    var short, full := path + [Name("client")], path + [Name("client"), Name(field)];
    assert Name(field) !in MASKED_FIELDS && Name(field) != CLIENT;
    forall i | 0 <= i < |full| - 1 && full[i] == CLIENT ensures full[i + 1] !in MASKED_FIELDS {
      if i < |path| {
        assert short[i] == full[i] && short[i + 1] == full[i + 1];
      }
    }
    ScalarsSurvive(j, full);
  }

  /** A scalar in the place of a client is left alone exactly if it is null, false, zero or the
      empty text. */
  lemma WhichClientsAreReplaced(v: Json)
    requires !IsObject(v)
    ensures Mask(Obj(map[Name("client") := v])) == Obj(map[Name("client") := v]) <==>
            v == Null || v == Bool(false) || v == Number(0.0) || v == Text("")
  {
    var before, after := Obj(map[CLIENT := v]), Mask(Obj(map[CLIENT := v]));
    assert after.fields[CLIENT] == MaskField(CLIENT, v);
    if MaskField(CLIENT, v) == v {
      assert after.fields == before.fields;
    }
  }
}
