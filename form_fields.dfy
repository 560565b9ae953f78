/**
 * The admin editors' `formData`: a plain JavaScript object whose keys keep
 * their insertion order, updated with `{ ...formData, key: value }`, checked
 * with `!formData.key`, and turned into a multipart `FormData` body by
 * appending every key in order.
 */
module FormFields {
  import opened Wrappers
  import opened Text
  import opened Lists
  import opened Uploads

  /** A form value: text typed into an input, or a number copied from a stored record. */
  datatype Value = Str(s: string) | Num(n: int)

  /** JavaScript truthiness of a value: the empty string and 0 are falsy. */
  predicate Truthy(v: Value) {
    match v
    case Str(s) => s != ""
    case Num(n) => n != 0
  }

  /** `String(v)`, which is what `FormData.append` stores. */
  function ValueString(v: Value): string {
    match v
    case Str(s) => s
    case Num(n) => IntToString(n)
  }

  datatype Entry = Entry(key: string, value: Value)

  /** An object, as its entries in insertion order. */
  type Form = seq<Entry>

  /** `Object.keys(form)` */
  function Keys(f: Form): (r: seq<string>)
    ensures |r| == |f|
    ensures forall i :: 0 <= i < |f| ==> r[i] == f[i].key
  {
    if f == [] then [] else [f[0].key] + Keys(f[1..])
  }

  /** An object never holds the same key twice. */
  predicate UniqueKeys(f: Form) {
    NoDuplicates(Keys(f))
  }

  /** `form[key]`, with `None` for `undefined`. */
  function Get(f: Form, key: string): (r: Option<Value>)
    ensures r.None? <==> key !in Keys(f)
    ensures r.Some? ==> Entry(key, r.value) in f
  {
    if f == [] then None
    else if f[0].key == key then Some(f[0].value)
    else
      var r := Get(f[1..], key);
      assert Keys(f) == [f[0].key] + Keys(f[1..]);
      r
  }

  /** `!form[key]`: the field is undefined or falsy. */
  predicate Missing(f: Form, key: string) {
    Get(f, key).None? || !Truthy(Get(f, key).value)
  }

  /** No field named in `keys` is missing: the editors' required-field check passes. */
  predicate AllFilled(f: Form, keys: seq<string>) {
    forall i :: 0 <= i < |keys| ==> !Missing(f, keys[i])
  }

  /** The check of three required fields, written out. */
  lemma AllFilledThree(f: Form, a: string, b: string, c: string)
    ensures AllFilled(f, [a, b, c]) <==> !Missing(f, a) && !Missing(f, b) && !Missing(f, c)
  {
    var keys := [a, b, c];
    if !Missing(f, a) && !Missing(f, b) && !Missing(f, c) {
      forall i | 0 <= i < 3 ensures !Missing(f, keys[i]) {
      }
    } else {
      assert Missing(f, keys[0]) || Missing(f, keys[1]) || Missing(f, keys[2]);
    }
  }

  /**
   * `{ ...form, [key]: v }`: the key now holds `v`, every other key keeps its
   * value, an existing key keeps its place and a new key goes last.
   */
  function Set(f: Form, key: string, v: Value): (r: Form)
    ensures Get(r, key) == Some(v)
    ensures forall k :: k != key ==> Get(r, k) == Get(f, k)
  {
    if f == [] then [Entry(key, v)]
    else if f[0].key == key then [Entry(key, v)] + f[1..]
    else [f[0]] + Set(f[1..], key, v)
  }

  /** `Set` keeps the key order: an existing key stays in place, a new key goes last. */
  lemma {:induction false} SetKeys(f: Form, key: string, v: Value)
    ensures key in Keys(f) ==> Keys(Set(f, key, v)) == Keys(f)
    ensures key !in Keys(f) ==> Keys(Set(f, key, v)) == Keys(f) + [key]
  {
    if f != [] {
      var r := Set(f, key, v);
      assert Keys(f) == [f[0].key] + Keys(f[1..]);
      if f[0].key == key {
        assert r[1..] == f[1..];
        assert Keys(r) == [r[0].key] + Keys(r[1..]);
      } else {
        var rest := Set(f[1..], key, v);
        assert r[1..] == rest;
        SetKeys(f[1..], key, v);
        assert Keys(r) == [f[0].key] + Keys(rest);
      }
    }
  }

  /** Setting a field keeps the keys of an object distinct. */
  lemma SetKeepsUniqueKeys(f: Form, key: string, v: Value)
    requires UniqueKeys(f)
    ensures UniqueKeys(Set(f, key, v))
  {
    SetKeys(f, key, v);
    var ks := Keys(f);
    if key !in ks {
      var ks' := ks + [key];
      forall i, j | 0 <= i < j < |ks'| ensures ks'[i] != ks'[j] {
        if j == |ks| {
          assert ks'[i] == ks[i];
        }
      }
    }
  }

  /** One part of a multipart body: a text field, or a file under a field name. */
  datatype Part = Field(name: string, value: string) | FilePart(name: string, file: File)

  /** The text parts for every key of the form, in key order. */
  function FieldParts(f: Form): (r: seq<Part>)
    ensures |r| == |f|
    ensures forall i :: 0 <= i < |f| ==> r[i] == Field(f[i].key, ValueString(f[i].value))
  {
    seq(|f|, i requires 0 <= i < |f| => Field(f[i].key, ValueString(f[i].value)))
  }

  /** The multipart body: every form key in order, then the file when one is chosen. */
  function Body(f: Form, fileField: string, file: Option<File>): seq<Part> {
    FieldParts(f) + (if file.Some? then [FilePart(fileField, file.value)] else [])
  }

  /**
   * The body carries every field of the form with its string value, and it
   * carries a file part exactly when a file was chosen, as its last part.
   */
  lemma BodyContents(f: Form, fileField: string, file: Option<File>)
    ensures forall k :: k in Keys(f) ==> Field(k, ValueString(Get(f, k).value)) in Body(f, fileField, file)
    ensures (exists i :: 0 <= i < |Body(f, fileField, file)| && Body(f, fileField, file)[i].FilePart?) <==> file.Some?
    ensures |Body(f, fileField, file)| == |f| + (if file.Some? then 1 else 0)
    ensures file.Some? ==> Body(f, fileField, file)[|f|] == FilePart(fileField, file.value)
  {
    var b := Body(f, fileField, file);
    forall k | k in Keys(f) ensures Field(k, ValueString(Get(f, k).value)) in b {
      var e := Entry(k, Get(f, k).value);
      var i :| 0 <= i < |f| && f[i] == e;
      assert b[i] == Field(k, ValueString(e.value));
    }
    if file.Some? {
      assert b[|f|].FilePart?;
    }
  }

  /**
   * `Object.keys(formData).forEach(key => body.append(key, formData[key]))`
   * followed by `if (file) body.append(fileField, file)`.
   */
  method BuildFormData(f: Form, fileField: string, file: Option<File>) returns (parts: seq<Part>)
    requires UniqueKeys(f)
    ensures parts == Body(f, fileField, file)
  {
    parts := [];
    var keys := Keys(f);
    for i := 0 to |keys|
      invariant parts == FieldParts(f[..i])
    {
      var value := Get(f, keys[i]);
      UniqueKeyLookup(f, i);
      parts := parts + [Field(keys[i], ValueString(value.value))];
      FieldPartsSnoc(f, i);
    }
    assert f[..|f|] == f;
    if file.Some? {
      parts := parts + [FilePart(fileField, file.value)];
    }
  }

  lemma FieldPartsSnoc(f: Form, i: nat)
    requires i < |f|
    ensures FieldParts(f[..i + 1]) == FieldParts(f[..i]) + [Field(f[i].key, ValueString(f[i].value))]
  {
  }

  /** With distinct keys, looking up the `i`-th key finds the `i`-th entry. */
  lemma {:induction false} UniqueKeyLookup(f: Form, i: nat)
    requires UniqueKeys(f) && i < |f|
    ensures Get(f, f[i].key) == Some(f[i].value)
  {
    if i > 0 {
      assert Keys(f)[0] != Keys(f)[i];
      assert UniqueKeys(f[1..]) by {
        var ks := Keys(f[1..]);
        forall a, b | 0 <= a < b < |ks| ensures ks[a] != ks[b] {
          assert ks[a] == Keys(f)[a + 1] && ks[b] == Keys(f)[b + 1];
        }
      }
      UniqueKeyLookup(f[1..], i - 1);
    }
  }
}
