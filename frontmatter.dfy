/** Markdown entries as the content transformers see them: a file's text,
    split by gray-matter into its YAML frontmatter (`data`) and its body.
    The frontmatter is a JavaScript object: its keys keep insertion order,
    assigning to an existing key keeps its place, and a new key goes last. */
module Frontmatter {
  import opened Common

  /** A frontmatter value. `Opaque` stands for any value (a list, a nested
      mapping, a date) that the transformers carry without looking inside;
      its tag tells such values apart. */
  datatype Value = Str(s: string) | Int(i: int) | Bool(b: bool) | Opaque(tag: nat)

  /** JavaScript truthiness of a frontmatter value; `None` is `undefined`.
      Lists, mappings and dates are objects, hence truthy. */
  predicate Truthy(v: Option<Value>)
  {
    match v
    case None => false
    case Some(Str(s)) => s != ""
    case Some(Int(i)) => i != 0
    case Some(Bool(b)) => b
    case Some(Opaque(_)) => true
  }

  type Entries = seq<(string, Value)>

  predicate UniqueKeys(e: Entries)
  {
    forall i, j :: 0 <= i < j < |e| ==> e[i].0 != e[j].0
  }

  function Keys(e: Entries): (ks: seq<string>)
    ensures |ks| == |e| && forall i :: 0 <= i < |e| ==> ks[i] == e[i].0
  {
    seq(|e|, i requires 0 <= i < |e| => e[i].0)
  }

  /** `data[key]`, `None` standing for `undefined`. */
  function Get(e: Entries, key: string): (r: Option<Value>)
    ensures r.None? <==> key !in Keys(e)
    ensures r.Some? ==> (key, r.value) in e
    decreases |e|
  {
    if e == [] then None
    else if e[0].0 == key then Some(e[0].1)
    else Get(e[1..], key)
  }

  /** `data[key] = v`. */
  function Set(e: Entries, key: string, v: Value): (r: Entries)
    ensures Keys(r) == if key in Keys(e) then Keys(e) else Keys(e) + [key]
    decreases |e|
  {
    if e == [] then [(key, v)]
    else if e[0].0 == key then [(key, v)] + e[1..]
    else [e[0]] + Set(e[1..], key, v)
  }

  /** After `data[key] = v`, reading `key` gives `v`. */
  lemma {:induction false} SetGetSame(e: Entries, key: string, v: Value)
    ensures Get(Set(e, key, v), key) == Some(v)
    decreases |e|
  {
    if e != [] && e[0].0 != key {
      SetGetSame(e[1..], key, v);
    }
  }

  /** ... and every other key reads as before. */
  lemma {:induction false} SetGetOther(e: Entries, key: string, v: Value, other: string)
    requires other != key
    ensures Get(Set(e, key, v), other) == Get(e, other)
    decreases |e|
  {
    if e != [] && e[0].0 != key {
      SetGetOther(e[1..], key, v, other);
    }
  }

  /** Assignment keeps the keys unique. */
  lemma SetUnique(e: Entries, key: string, v: Value)
    requires UniqueKeys(e)
    ensures UniqueKeys(Set(e, key, v))
  {
    var r := Set(e, key, v);
    var ks, rs := Keys(e), Keys(r);
    forall i, j | 0 <= i < j < |r|
      ensures r[i].0 != r[j].0
    {
      assert rs[i] == r[i].0 && rs[j] == r[j].0;
      if j < |e| {
        assert rs[i] == ks[i] && rs[j] == ks[j];
      } else {
        assert key !in ks && rs[i] == ks[i] && rs[j] == key;
      }
    }
  }

  /** The assignments `data[k] = v` for each pair of `sets`, in order. */
  function SetAll(e: Entries, sets: Entries): Entries
    decreases |sets|
  {
    if sets == [] then e else SetAll(Set(e, sets[0].0, sets[0].1), sets[1..])
  }

  /** A key no assignment names reads as before. */
  lemma {:induction false} SetAllOther(e: Entries, sets: Entries, k: string)
    requires k !in Keys(sets)
    ensures Get(SetAll(e, sets), k) == Get(e, k)
    decreases |sets|
  {
    if sets != [] {
      assert Keys(sets)[1..] == Keys(sets[1..]);
      assert sets[0].0 == Keys(sets)[0];
      SetAllOther(Set(e, sets[0].0, sets[0].1), sets[1..], k);
      SetGetOther(e, sets[0].0, sets[0].1, k);
    }
  }

  /** With distinct keys, each assigned key reads as its assigned value. */
  lemma {:induction false} SetAllGet(e: Entries, sets: Entries, i: nat)
    requires UniqueKeys(sets) && i < |sets|
    ensures Get(SetAll(e, sets), sets[i].0) == Some(sets[i].1)
    decreases |sets|
  {
    var e1 := Set(e, sets[0].0, sets[0].1);
    assert Keys(sets)[1..] == Keys(sets[1..]);
    if i == 0 {
      assert sets[0].0 !in Keys(sets[1..]) by {
        forall j | 0 <= j < |sets[1..]|
          ensures Keys(sets[1..])[j] != sets[0].0
        {
          assert sets[1..][j] == sets[j + 1];
        }
      }
      SetAllOther(e1, sets[1..], sets[0].0);
      SetGetSame(e, sets[0].0, sets[0].1);
    } else {
      SetAllGet(e1, sets[1..], i - 1);
    }
  }

  /** With distinct keys, every assignment reads back, and every key no
      assignment names reads as before. */
  lemma SetAllReads(e: Entries, sets: Entries)
    requires UniqueKeys(sets)
    ensures forall i :: 0 <= i < |sets| ==> Get(SetAll(e, sets), sets[i].0) == Some(sets[i].1)
    ensures forall k :: k !in Keys(sets) ==> Get(SetAll(e, sets), k) == Get(e, k)
  {
    forall i | 0 <= i < |sets|
      ensures Get(SetAll(e, sets), sets[i].0) == Some(sets[i].1)
    {
      SetAllGet(e, sets, i);
    }
    forall k | k !in Keys(sets)
      ensures Get(SetAll(e, sets), k) == Get(e, k)
    {
      SetAllOther(e, sets, k);
    }
  }

  /** The result of gray-matter: frontmatter and body. */
  datatype Document = Document(data: Entries, body: string)

  /** A transformer's input or output: text, or the bytes of a binary file. */
  datatype Content = Text(doc: Document) | Binary(bytes: seq<bv8>)

  /** What a transformer returns: the entry's path and its new content. */
  datatype Entry = Entry(path: string, content: Content)
}
