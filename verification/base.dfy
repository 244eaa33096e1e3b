/** Values shared by the tool definition and the executor: the keys and values
    of a tool's data, and the few Ruby collection operations the definition
    code relies on (`Array#uniq`, `Array#&`, `Array#join`, `Hash#[]`). */
module Base {

  datatype Option<T> = None | Some(value: T)

  /** The end of a call that either returns normally or raises `error`. */
  datatype Outcome<E> = Pass | Fail(error: E)

  /** A key of a tool's data. Five keys are reserved by the framework (the
      constants TOOL_DEFINITION, TOOL_NAME, VERBOSITY, ARGS and USAGE_ERROR);
      every other key is a symbol the tool author chose. A reserved key may
      still be given to `add_flag`, which is how verbosity flags work. */
  datatype Key =
    | Sym(name: string)
    | ToolDefinitionKey
    | ToolNameKey
    | VerbosityKey
    | ArgsKey
    | UsageErrorKey

  /** The Ruby objects that end up in a tool's data. */
  datatype Value =
    | Nil
    | Bool(b: bool)
    | Int(i: int)
    | Str(s: string)
    | Strings(items: seq<string>)
    | List(elements: seq<Value>)
    | DefinitionRef                                 // the tool definition object itself
    | UsageError(reason: string, path: seq<string>)  // an OptionParser::ParseError
    | Other(id: nat)                                // any other object

  const RESERVED_KEYS: set<Key> := {ToolDefinitionKey, ToolNameKey, VerbosityKey, ArgsKey, UsageErrorKey}

  /** `Hash#[]`: a missing key reads as nil. */
  function Lookup(data: map<Key, Value>, k: Key): (v: Value)
    ensures k !in data ==> v == Nil
    ensures k in data ==> v == data[k]
  {
    if k in data then data[k] else Nil
  }

  /** `Array#join(sep)`. */
  function Join(words: seq<string>, sep: string): string
  {
    if |words| == 0 then ""
    else if |words| == 1 then words[0]
    else words[0] + sep + Join(words[1..], sep)
  }

  /** Joining one more word puts it after the separator. */
  lemma {:induction false} JoinSnoc(words: seq<string>, w: string, sep: string)
    ensures Join(words + [w], sep) == if words == [] then w else Join(words, sep) + sep + w
    decreases |words|
  {
    if |words| > 1 {
      assert (words + [w])[1..] == words[1..] + [w];
      JoinSnoc(words[1..], w, sep);
    } else if |words| == 1 {
      assert (words + [w])[1..] == [w];
    }
  }

  /** The position of the first occurrence of `x` in `s`. */
  function IndexOf<T(==)>(s: seq<T>, x: T): (i: nat)
    requires x in s
    ensures i < |s| && s[i] == x && x !in s[..i]
    decreases |s|
  {
    if s[0] == x then 0 else 1 + IndexOf(s[1..], x)
  }

  ghost predicate NoDuplicates<T>(s: seq<T>)
  {
    forall i, j :: 0 <= i < j < |s| ==> s[i] != s[j]
  }

  /** `Array#uniq`: the first occurrence of every element, in order. */
  function Uniq<T(==, !new)>(s: seq<T>): (r: seq<T>)
    ensures forall x :: x in r <==> x in s
    ensures NoDuplicates(r)
    ensures |r| <= |s|
    decreases |s|
  {
    if |s| == 0 then []
    else
      var front := Uniq(s[..|s| - 1]);
      if s[|s| - 1] in front then front else front + [s[|s| - 1]]
  }

  /** A sequence without repeated elements is its own `uniq`. */
  lemma {:induction false} UniqOfDistinct<T(!new)>(s: seq<T>)
    requires NoDuplicates(s)
    ensures Uniq(s) == s
    decreases |s|
  {
    if |s| > 0 {
      var front := s[..|s| - 1];
      assert NoDuplicates(front);
      UniqOfDistinct(front);
      assert s[|s| - 1] !in front by {
        forall i | 0 <= i < |front| ensures front[i] != s[|s| - 1] {
          assert s[i] != s[|s| - 1];
        }
      }
      assert front + [s[|s| - 1]] == s;
    }
  }

  /** The first occurrence of an element in a prefix is its first occurrence
      in the whole. */
  lemma IndexOfPrefix<T>(s: seq<T>, n: nat, x: T)
    requires n <= |s| && x in s[..n]
    ensures IndexOf(s, x) == IndexOf(s[..n], x)
  {
    var j := IndexOf(s[..n], x);
    assert s[..n][..j] == s[..j];
  }

  /** `uniq` keeps the elements in the order of their first occurrences. */
  lemma {:induction false} UniqOrder<T(!new)>(s: seq<T>)
    ensures forall i, j :: 0 <= i < j < |Uniq(s)| ==> IndexOf(s, Uniq(s)[i]) < IndexOf(s, Uniq(s)[j])
    decreases |s|
  {
    if |s| > 0 {
      var n := |s| - 1;
      var front := Uniq(s[..n]);
      UniqOrder(s[..n]);
      assert s[..n] + [s[n]] == s;
      forall x | x in front ensures IndexOf(s, x) == IndexOf(s[..n], x) < n {
        IndexOfPrefix(s, n, x);
      }
      if s[n] !in front {
        assert s[n] !in s[..n];
        var r := front + [s[n]];
        forall i, j | 0 <= i < j < |r| ensures IndexOf(s, r[i]) < IndexOf(s, r[j]) {
          assert r[i] == front[i];
          if j < |front| {
            assert r[j] == front[j];
          }
        }
      }
    }
  }

  /** The elements of `a`, in order, that also occur in `b`. */
  function Filter<T(==, !new)>(a: seq<T>, b: seq<T>): (r: seq<T>)
    ensures forall x :: x in r <==> x in a && x in b
    decreases |a|
  {
    if |a| == 0 then []
    else if a[0] in b then [a[0]] + Filter(a[1..], b)
    else Filter(a[1..], b)
  }

  /** `Filter` keeps the order of `a`. */
  lemma {:induction false} FilterOrder<T(!new)>(a: seq<T>, b: seq<T>, x: T, y: T)
    requires x in Filter(a, b) && y in Filter(a, b)
    requires IndexOf(Filter(a, b), x) < IndexOf(Filter(a, b), y)
    ensures IndexOf(a, x) < IndexOf(a, y)
    decreases |a|
  {
    var f, rest := Filter(a, b), Filter(a[1..], b);
    if a[0] in b {
      assert f == [a[0]] + rest;
      if x != a[0] {
        assert y != a[0];
        assert IndexOf(f, x) == 1 + IndexOf(rest, x) && IndexOf(f, y) == 1 + IndexOf(rest, y);
        FilterOrder(a[1..], b, x, y);
      }
    } else {
      assert x != a[0] && y != a[0];
      FilterOrder(a[1..], b, x, y);
    }
  }

  /** `Array#&` keeps the elements in the order of the first array. */
  lemma IntersectOrder<T(!new)>(a: seq<T>, b: seq<T>)
    ensures forall i, j :: 0 <= i < j < |Intersect(a, b)| ==>
      IndexOf(a, Intersect(a, b)[i]) < IndexOf(a, Intersect(a, b)[j])
  {
    var f := Filter(a, b);
    UniqOrder(f);
    forall i, j | 0 <= i < j < |Intersect(a, b)|
      ensures IndexOf(a, Intersect(a, b)[i]) < IndexOf(a, Intersect(a, b)[j])
    {
      FilterOrder(a, b, Intersect(a, b)[i], Intersect(a, b)[j]);
    }
  }

  /** `Array#&`: the elements common to both, without duplicates, in the
      order of the first array. */
  function Intersect<T(==, !new)>(a: seq<T>, b: seq<T>): (r: seq<T>)
    ensures forall x :: x in r <==> x in a && x in b
    ensures NoDuplicates(r)
    ensures r == [] <==> forall x :: x in b ==> x !in a
  {
    var r := Uniq(Filter(a, b));
    assert r != [] ==> r[0] in a && r[0] in b;
    r
  }
}
