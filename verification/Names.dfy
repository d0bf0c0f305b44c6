/** The name `namespace_name` that ties an object to its cloud instance, alarms and topic. */
module Names {
  import opened Common
  import opened Strings

  function Encode(namespace: string, name: string): string {
    namespace + "_" + name
  }

  /** How the alarm receiver recovers the object from a topic URN; both splits are indexed without a
      length check, so a URN of another shape panics. */
  function Decode(urn: string): Option<(string, string)> {
    var fields := Split(urn, ':');
    if |fields| < 5 then None else
      var parts := Split(fields[4], '_');
      if |parts| < 2 then None else Some((parts[0], parts[1]))
  }

  lemma SplitEncoded(namespace: string, name: string)
    ensures |Split(Encode(namespace, name), '_')| >= 2
    ensures '_' !in namespace ==> Split(Encode(namespace, name), '_') == [namespace] + Split(name, '_')
    ensures '_' in namespace ==> Split(Encode(namespace, name), '_')[0] != namespace
  {
    var s := Encode(namespace, name);
    FindAtMost(s, '_', |namespace|);
    if '_' !in namespace {
      assert s[..|namespace|] == namespace;
      FindUnique(s, '_', |namespace|);
      assert s[|namespace| + 1..] == name;
    } else {
      var i :| 0 <= i < |namespace| && namespace[i] == '_';
      FindAtMost(s, '_', i);
    }
  }

  /** The round trip through a topic URN recovers the object exactly when neither part of its name
      holds the separator. */
  lemma DecodeEncode(fields: seq<string>, namespace: string, name: string)
    requires |fields| >= 5 && forall i | 0 <= i < |fields| :: ':' !in fields[i]
    requires fields[4] == Encode(namespace, name)
    ensures Decode(Join(fields, ':')) == Some((namespace, name)) <==> '_' !in namespace && '_' !in name
  {
    SplitJoin(fields, ':');
    SplitEncoded(namespace, name);
    if '_' !in namespace {
      if '_' !in name {
        FindUnique(name, '_', |name|);
      } else {
        var i :| 0 <= i < |name| && name[i] == '_';
        FindAtMost(name, '_', i);
      }
    }
  }

  lemma EncodeInjective(ns1: string, n1: string, ns2: string, n2: string)
    requires '_' !in ns1 && '_' !in ns2
    requires Encode(ns1, n1) == Encode(ns2, n2)
    ensures ns1 == ns2 && n1 == n2
  {
    var s := Encode(ns1, n1);
    assert s[..|ns1|] == ns1 && s[..|ns2|] == ns2;
    FindUnique(s, '_', |ns1|);
    FindUnique(s, '_', |ns2|);
    assert s[|ns1| + 1..] == n1 && s[|ns2| + 1..] == n2;
  }

  /** Without the restriction on namespaces two objects could share one instance name. Kubernetes admits
      no namespace with "_", so that this does not come about. */
  lemma EncodeCollides()
    ensures Encode("a", "b_c") == Encode("a_b", "c")
  {
    assert "a" + "_" + "b_c" == "a_b" + "_" + "c";
  }

  /** Object (ns1, n1) is named inside an alarm `ns2_n2suffix`. */
  predicate Shadows(ns1: string, n1: string, ns2: string, tail: string) {
    HasSuffix(ns2, ns1) && n1 <= tail
  }

  /** Substring matching of alarm names, characterised: the one separator of either string must line up. */
  lemma ContainsEncoded(ns1: string, n1: string, ns2: string, tail: string)
    requires '_' !in ns1 && '_' !in ns2 && '_' !in tail
    ensures Contains(Encode(ns2, tail), Encode(ns1, n1)) <==> Shadows(ns1, n1, ns2, tail)
  {
    var hay, needle := Encode(ns2, tail), Encode(ns1, n1);
    if Contains(hay, needle) {
      var i :| 0 <= i <= |hay| - |needle| && OccursAt(hay, needle, i);
      assert hay[i + |ns1|] == needle[|ns1|] == '_';
      assert i + |ns1| == |ns2|;
      assert ns2[i..] == hay[i..i + |needle|][..|ns1|] == ns1;
      assert tail[..|n1|] == hay[i..i + |needle|][|ns1| + 1..] == n1;
    }
    if Shadows(ns1, n1, ns2, tail) {
      var i := |ns2| - |ns1|;
      assert ns2[i..] == ns1 && tail[..|n1|] == n1;
      assert hay[i..i + |needle|] == ns2[i..] + "_" + tail[..|n1|];
      assert OccursAt(hay, needle, i);
    }
  }
}
