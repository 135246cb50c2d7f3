/**
 * Ruby data as the SDK sees it: parameter values, attribute values, parsed JSON, and
 * hashes as ordered association lists with string keys (standing for Ruby symbols).
 */
module Values {
  import opened Wrappers
  import opened Strings

  /**
   * A Ruby value: nil, a boolean, an integer, a float (kept as the text Ruby's `to_s` gives
   * it), a string, a symbol, an array or a hash.
   */
  datatype Value =
    | Nil
    | Bool(b: bool)
    | Int(i: int)
    | Float(text: string)
    | Str(s: string)
    | Sym(name: string)
    | Arr(items: seq<Value>)
    | Hash(entries: seq<(string, Value)>)

  /** Ruby truthiness: only nil and false are falsy. */
  predicate Truthy(v: Value)
  {
    v != Nil && v != Bool(false)
  }

  /** Ruby's `inspect`, simplified: strings are quoted but not escaped. */
  function Inspect(v: Value): string
    decreases v
  {
    match v
    case Nil => "nil"
    case Bool(b) => if b then "true" else "false"
    case Int(i) => IntToString(i)
    case Float(text) => text
    case Str(s) => "\"" + s + "\""
    case Sym(name) => ":" + name
    case Arr(items) =>
      "[" + Join(seq(|items|, k requires 0 <= k < |items| => Inspect(items[k])), ", ") + "]"
    case Hash(entries) =>
      "{" + Join(seq(|entries|, k requires 0 <= k < |entries| =>
                       ":" + entries[k].0 + "=>" + Inspect(entries[k].1)), ", ") + "}"
  }

  /** Ruby's `to_s`, which string interpolation uses. */
  function ToS(v: Value): (s: string)
    ensures v.Str? ==> s == v.s
    ensures v == Nil ==> s == ""
    ensures v.Int? ==> IntValue(s) == v.i
    ensures v.Float? ==> s == v.text
    ensures v.Sym? ==> s == v.name
  {
    match v
    case Nil => ""
    case Str(s) => s
    case Sym(name) => name
    case Int(i) => IntToStringValue(i); Inspect(v)
    case _ => Inspect(v)
  }

  /** An ordered hash: the insertion order of Ruby's Hash is kept. */
  type AList<V> = seq<(string, V)>

  /** No key occurs twice, as in every Ruby Hash. */
  predicate UniqueKeys<V>(h: AList<V>)
  {
    forall i, j :: 0 <= i < j < |h| ==> h[i].0 != h[j].0
  }

  /** `h[k]`: the value stored under k, if any. */
  function Lookup<V>(h: AList<V>, k: string): (r: Option<V>)
    ensures r.Some? <==> exists i :: 0 <= i < |h| && h[i].0 == k
    ensures r.Some? ==> exists i :: 0 <= i < |h| && h[i] == (k, r.value)
  {
    if |h| == 0 then None
    else if h[0].0 == k then Some(h[0].1)
    else Lookup(h[1..], k)
  }

  /** In a hash with unique keys, looking up the key of any entry finds that entry's value. */
  lemma {:induction false} LookupUnique<V>(h: AList<V>, i: int)
    requires UniqueKeys(h)
    requires 0 <= i < |h|
    ensures Lookup(h, h[i].0) == Some(h[i].1)
    decreases i
  {
    if i > 0 {
      assert h[1..][i - 1] == h[i];
      assert UniqueKeys(h[1..]) by {
        forall a, b | 0 <= a < b < |h[1..]| ensures h[1..][a].0 != h[1..][b].0 {
          assert h[1..][a] == h[a + 1] && h[1..][b] == h[b + 1];
        }
      }
      LookupUnique(h[1..], i - 1);
    }
  }

  /** `h.key?(k)`. */
  predicate HasKey<V>(h: AList<V>, k: string)
  {
    Lookup(h, k).Some?
  }

  /** The keys in order, `h.keys`. */
  function Keys<V>(h: AList<V>): (ks: seq<string>)
    ensures |ks| == |h|
    ensures forall i :: 0 <= i < |h| ==> ks[i] == h[i].0
  {
    seq(|h|, i requires 0 <= i < |h| => h[i].0)
  }

  /** `h[k] = v`: overwrite the value in place if k is present, else append. */
  function Put<V>(h: AList<V>, k: string, v: V): (r: AList<V>)
    ensures HasKey(h, k) ==> Keys(r) == Keys(h)
    ensures !HasKey(h, k) ==> r == h + [(k, v)]
  {
    if |h| == 0 then [(k, v)]
    else if h[0].0 == k then [(k, v)] + h[1..]
    else [h[0]] + Put(h[1..], k, v)
  }

  /** After `h[k] = v`, k gives v and every other key what it gave before. */
  lemma {:induction false} PutLookup<V>(h: AList<V>, k: string, v: V, k': string)
    ensures Lookup(Put(h, k, v), k') == if k' == k then Some(v) else Lookup(h, k')
    decreases |h|
  {
    if |h| > 0 && h[0].0 != k {
      PutLookup(h[1..], k, v, k');
      assert ([h[0]] + Put(h[1..], k, v))[1..] == Put(h[1..], k, v);
    } else if |h| > 0 {
      assert ([(k, v)] + h[1..])[1..] == h[1..];
    }
  }

  /** Putting a key the hash does not hold appends the entry. */
  lemma {:induction false} PutAbsent<V>(h: AList<V>, k: string, v: V)
    requires forall i :: 0 <= i < |h| ==> h[i].0 != k
    ensures Put(h, k, v) == h + [(k, v)]
    decreases |h|
  {
    if |h| > 0 {
      PutAbsent(h[1..], k, v);
      assert h == [h[0]] + h[1..];
    }
  }

  /** `h.merge(o)`: every entry of o is put into h, in o's order. */
  function Merge<V>(h: AList<V>, o: AList<V>): AList<V>
    decreases |o|
  {
    if |o| == 0 then h else Merge(Put(h, o[0].0, o[0].1), o[1..])
  }

  /** A key the merged hash does not hold keeps the receiver's value. */
  lemma {:induction false} MergeLookupUntouched<V>(h: AList<V>, o: AList<V>, k: string)
    requires !HasKey(o, k)
    ensures Lookup(Merge(h, o), k) == Lookup(h, k)
    decreases |o|
  {
    if |o| > 0 {
      PutLookup(h, o[0].0, o[0].1, k);
      MergeLookupUntouched(Put(h, o[0].0, o[0].1), o[1..], k);
    }
  }

  /** The merged hash has exactly the keys of both hashes. */
  lemma {:induction false} MergeHasKey<V>(h: AList<V>, o: AList<V>, k: string)
    ensures HasKey(Merge(h, o), k) <==> HasKey(h, k) || HasKey(o, k)
    decreases |o|
  {
    if |o| > 0 {
      PutLookup(h, o[0].0, o[0].1, k);
      MergeHasKey(Put(h, o[0].0, o[0].1), o[1..], k);
    }
  }

  /** Merging a hash whose keys are unique: its values win over the receiver's. */
  lemma {:induction false} MergeOverrides<V>(h: AList<V>, o: AList<V>, k: string)
    requires UniqueKeys(o)
    requires HasKey(o, k)
    ensures Lookup(Merge(h, o), k) == Lookup(o, k)
    decreases |o|
  {
    if o[0].0 != k {
      assert UniqueKeys(o[1..]) by {
        forall i, j | 0 <= i < j < |o[1..]| ensures o[1..][i].0 != o[1..][j].0 {
          assert o[1..][i] == o[i + 1] && o[1..][j] == o[j + 1];
        }
      }
      MergeOverrides(Put(h, o[0].0, o[0].1), o[1..], k);
    } else {
      forall i | 0 <= i < |o[1..]| ensures o[1..][i].0 != k {
        assert o[1..][i] == o[i + 1];
      }
      MergeLookupUntouched(Put(h, k, o[0].1), o[1..], k);
      PutLookup(h, k, o[0].1, k);
    }
  }

  /** The entries whose key satisfies keep, in their original order. */
  function Select<V>(h: AList<V>, keep: string -> bool): (r: AList<V>)
    ensures |r| <= |h|
    ensures forall i :: 0 <= i < |r| ==> r[i] in h && keep(r[i].0)
    ensures forall i :: 0 <= i < |h| && keep(h[i].0) ==> h[i] in r
    decreases |h|
  {
    if |h| == 0 then []
    else if keep(h[0].0) then [h[0]] + Select(h[1..], keep)
    else Select(h[1..], keep)
  }

  /**
   * Selecting by a predicate and by its negation splits a hash in two: together the
   * two parts hold every entry exactly as often as the hash does.
   */
  lemma {:induction false} SelectPartition<V>(h: AList<V>, keep: string -> bool, drop: string -> bool)
    requires forall k :: drop(k) <==> !keep(k)
    ensures multiset(Select(h, keep)) + multiset(Select(h, drop)) == multiset(h)
    ensures |Select(h, keep)| + |Select(h, drop)| == |h|
    decreases |h|
  {
    if |h| > 0 {
      SelectPartition(h[1..], keep, drop);
      assert h == [h[0]] + h[1..];
    }
  }

  /** Selecting with a predicate every key satisfies keeps the whole hash. */
  lemma {:induction false} SelectAll<V>(h: AList<V>, keep: string -> bool)
    requires forall i :: 0 <= i < |h| ==> keep(h[i].0)
    ensures Select(h, keep) == h
    decreases |h|
  {
    if |h| > 0 {
      assert keep(h[0].0);
      SelectAll(h[1..], keep);
      assert h == [h[0]] + h[1..];
    }
  }

  /** Selecting with a predicate no key satisfies keeps nothing. */
  lemma {:induction false} SelectNone<V>(h: AList<V>, keep: string -> bool)
    requires forall i :: 0 <= i < |h| ==> !keep(h[i].0)
    ensures Select(h, keep) == []
    decreases |h|
  {
    if |h| > 0 {
      assert !keep(h[0].0);
      SelectNone(h[1..], keep);
    }
  }

  /** Selecting from a hash with one more entry at the end. */
  lemma {:induction false} SelectSnoc<V>(h: AList<V>, e: (string, V), keep: string -> bool)
    ensures Select(h + [e], keep) == Select(h, keep) + (if keep(e.0) then [e] else [])
    decreases |h|
  {
    if |h| == 0 {
      assert [e][1..] == [];
    } else {
      assert (h + [e])[1..] == h[1..] + [e];
      SelectSnoc(h[1..], e, keep);
    }
  }

  /** Putting a key that Select drops leaves the selection unchanged. */
  lemma {:induction false} SelectIgnoresPutOfDropped<V>(h: AList<V>, k: string, v: V, keep: string -> bool)
    requires !keep(k)
    ensures Select(Put(h, k, v), keep) == Select(h, keep)
    decreases |h|
  {
    if |h| > 0 && h[0].0 != k {
      SelectIgnoresPutOfDropped(h[1..], k, v, keep);
      assert ([h[0]] + Put(h[1..], k, v))[1..] == Put(h[1..], k, v);
    } else if |h| > 0 {
      assert ([(k, v)] + h[1..])[1..] == h[1..];
    }
  }

  /** Merging in entries that Select drops leaves the selection unchanged. */
  lemma {:induction false} SelectIgnoresMergeOfDropped<V>(h: AList<V>, o: AList<V>, keep: string -> bool)
    requires forall i :: 0 <= i < |o| ==> !keep(o[i].0)
    ensures Select(Merge(h, o), keep) == Select(h, keep)
    decreases |o|
  {
    if |o| > 0 {
      SelectIgnoresPutOfDropped(h, o[0].0, o[0].1, keep);
      forall i | 0 <= i < |o[1..]| ensures !keep(o[1..][i].0) {
        assert o[1..][i] == o[i + 1];
      }
      SelectIgnoresMergeOfDropped(Put(h, o[0].0, o[0].1), o[1..], keep);
    }
  }
}
