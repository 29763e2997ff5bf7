/**
 Plug records and their content-derived ids (`_createPlugId`,
 OctoPrintPowerPlugins.py lines 64-66).
 */
module Plugs {
  import opened Wrappers
  import opened OrderedMaps

  /** A plug record: its fields in insertion order, the first being `plugin`. */
  type Plug = OrderedMap<string, string>

  /** The registry: plug id to plug record, in discovery order. */
  type Registry = OrderedMap<string, Plug>

  /** Python's `KeyError`, carrying the key that was missing. */
  datatype KeyError = KeyError(key: string)

  /** `sep.join(parts)`. */
  function Join(sep: string, parts: seq<string>): string
  {
    if |parts| == 0 then ""
    else if |parts| == 1 then parts[0]
    else parts[0] + sep + Join(sep, parts[1..])
  }

  /** The values of every field except `name`, in field order. */
  function InterestingBits(plug: Plug): seq<string>
  {
    if |plug| == 0 then []
    else (if plug[0].0 == "name" then [] else [plug[0].1]) + InterestingBits(plug[1..])
  }

  /**
   The id of a plug: its non-`name` field values joined with `/`. A record without
   a `name` field joins all its values; a `name` field, wherever it stands, adds
   nothing.
   */
  function CreatePlugId(plug: Plug): (id: string)
    ensures "name" !in Keys(plug) ==> id == Join("/", Values(plug))
    ensures forall i {:trigger plug[..i]} :: 0 <= i < |plug| && plug[i].0 == "name" ==>
              id == CreatePlugId(plug[..i] + plug[i + 1..])
    decreases |plug|
  {
    NoNameBits(plug);
    NameAddsNoBits(plug);
    Join("/", InterestingBits(plug))
  }

  lemma NoNameBits(plug: Plug)
    ensures "name" !in Keys(plug) ==> InterestingBits(plug) == Values(plug)
  {
    if "name" !in Keys(plug) {
      InterestingBitsNoName(plug);
    }
  }

  /** Removing a `name` field leaves the id bits as they were. */
  lemma NameAddsNoBits(plug: Plug)
    ensures forall i {:trigger plug[..i]} :: 0 <= i < |plug| && plug[i].0 == "name" ==>
              InterestingBits(plug[..i] + plug[i + 1..]) == InterestingBits(plug)
  {
    forall i | 0 <= i < |plug| && plug[i].0 == "name"
      ensures InterestingBits(plug[..i] + plug[i + 1..]) == InterestingBits(plug)
    {
      assert plug == plug[..i] + ([plug[i]] + plug[i + 1..]);
      InterestingBitsAppend(plug[..i], [plug[i]] + plug[i + 1..]);
      InterestingBitsAppend(plug[..i], plug[i + 1..]);
      assert ([plug[i]] + plug[i + 1..])[1..] == plug[i + 1..];
    }
  }

  /** The text of `id` before its first `/` (all of it when there is none). */
  function IdKind(id: string): (kind: string)
    ensures '/' !in kind
    ensures |kind| <= |id| && id[..|kind|] == kind
  {
    if |id| == 0 || id[0] == '/' then "" else [id[0]] + IdKind(id[1..])
  }

  /** A plug whose first field is `plugin`. */
  predicate HasPluginFirst(plug: Plug)
  {
    |plug| > 0 && plug[0].0 == "plugin"
  }

  /** The `name` field does not take part in the id: records that differ only there share it. */
  lemma IdIgnoresName(p: Plug, q: Plug)
    requires Keys(p) == Keys(q)
    requires forall i :: 0 <= i < |p| && p[i].0 != "name" ==> p[i].1 == q[i].1
    ensures CreatePlugId(p) == CreatePlugId(q)
  {
    IdIgnoresNameBits(p, q);
  }

  lemma {:induction false} IdIgnoresNameBits(p: Plug, q: Plug)
    requires Keys(p) == Keys(q)
    requires forall i :: 0 <= i < |p| && p[i].0 != "name" ==> p[i].1 == q[i].1
    ensures InterestingBits(p) == InterestingBits(q)
    decreases |p|
  {
    if |p| > 0 {
      assert Keys(p[1..]) == Keys(p)[1..];
      assert Keys(q[1..]) == Keys(q)[1..];
      IdIgnoresNameBits(p[1..], q[1..]);
    }
  }

  /** The id bits of two field lists laid end to end. */
  lemma {:induction false} InterestingBitsAppend(a: Plug, b: Plug)
    ensures InterestingBits(a + b) == InterestingBits(a) + InterestingBits(b)
    decreases |a|
  {
    if |a| > 0 {
      var head := if a[0].0 == "name" then [] else [a[0].1];
      assert (a + b)[0] == a[0];
      assert (a + b)[1..] == a[1..] + b;
      InterestingBitsAppend(a[1..], b);
      assert head + (InterestingBits(a[1..]) + InterestingBits(b)) == (head + InterestingBits(a[1..])) + InterestingBits(b);
    } else {
      assert a + b == b;
    }
  }

  /** Without a `name` field every value is an id bit. */
  lemma {:induction false} InterestingBitsNoName(q: Plug)
    requires "name" !in Keys(q)
    ensures |InterestingBits(q)| == |q|
    ensures forall i :: 0 <= i < |q| ==> InterestingBits(q)[i] == q[i].1
    decreases |q|
  {
    if |q| > 0 {
      assert Keys(q[1..]) == Keys(q)[1..];
      assert q[0].0 == Keys(q)[0];
      InterestingBitsNoName(q[1..]);
    }
  }

  /** `IdKind` reads back the first component of a `/`-join. */
  lemma {:induction false} IdKindOfJoin(parts: seq<string>)
    requires |parts| > 0 && '/' !in parts[0]
    ensures IdKind(Join("/", parts)) == parts[0]
  {
    if |parts| == 1 {
      IdKindOfPrefix(parts[0], "");
      assert parts[0] + "" == parts[0];
    } else {
      IdKindOfPrefix(parts[0], "/" + Join("/", parts[1..]));
      assert parts[0] + "/" + Join("/", parts[1..]) == parts[0] + ("/" + Join("/", parts[1..]));
    }
  }

  lemma {:induction false} IdKindOfPrefix(a: string, rest: string)
    requires '/' !in a
    requires |rest| == 0 || rest[0] == '/'
    ensures IdKind(a + rest) == a
    decreases |a|
  {
    if |a| > 0 {
      assert (a + rest)[1..] == a[1..] + rest;
      IdKindOfPrefix(a[1..], rest);
    }
  }

  /**
   The id of a record starts with its plugin: it is the plugin key itself, or
   the plugin key followed by `/`; and the plugin can be read back from the id.
   */
  lemma IdStartsWithPlugin(plug: Plug)
    requires HasPluginFirst(plug) && '/' !in plug[0].1
    ensures var id, kind := CreatePlugId(plug), plug[0].1;
      id == kind || (|kind| < |id| && id[..|kind| + 1] == kind + "/")
    ensures IdKind(CreatePlugId(plug)) == plug[0].1
  {
    var bits := InterestingBits(plug);
    assert bits == [plug[0].1] + InterestingBits(plug[1..]);
    IdKindOfJoin(bits);
    if |bits| > 1 {
      var id := CreatePlugId(plug);
      assert id == plug[0].1 + "/" + Join("/", bits[1..]);
      assert id[..|plug[0].1| + 1] == plug[0].1 + "/";
    }
  }

  /** Records of different plugins never share an id. */
  lemma DifferentPluginsDifferentIds(p: Plug, q: Plug)
    requires HasPluginFirst(p) && '/' !in p[0].1
    requires HasPluginFirst(q) && '/' !in q[0].1
    requires p[0].1 != q[0].1
    ensures CreatePlugId(p) != CreatePlugId(q)
  {
    IdStartsWithPlugin(p);
    IdStartsWithPlugin(q);
  }
}
