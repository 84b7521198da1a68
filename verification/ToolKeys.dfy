/** Tool names: `backend__tool`, cut at the first separator (src/ir/ToolKey.cpp). */
module ToolKeys {
  import opened Options

  datatype ToolKey = ToolKey(backend: string, tool: string)

  const SEP := "__"

  predicate SepAt(s: string, i: nat) {
    i + 1 < |s| && s[i] == '_' && s[i + 1] == '_'
  }

  /** Index of the first separator at or after `i`, or |s| when there is none. */
  function FindSep(s: string, i: nat): (p: nat)
    requires i <= |s|
    ensures i <= p <= |s|
    ensures p < |s| ==> SepAt(s, p)
    ensures forall j :: i <= j < p ==> !SepAt(s, j)
    decreases |s| - i
  {
    if i == |s| || SepAt(s, i) then i else FindSep(s, i + 1)
  }

  function Parse(s: string): (r: Option<ToolKey>)
    ensures r.Some? ==> Str(r.value) == s && r.value.backend != "" && r.value.tool != ""
  {
    var pos := FindSep(s, 0);
    if pos == |s| || pos == 0 || pos + 2 >= |s| then None
    else
      assert s == s[..pos] + SEP + s[pos + 2..];
      Some(ToolKey(s[..pos], s[pos + 2..]))
  }

  function Str(k: ToolKey): string {
    k.backend + SEP + k.tool
  }

  /** What a backend name needs for its tools to be addressable. The loader checks the first two
      conditions only (src/policy/YamlConfig.cpp:127-130). */
  predicate Addressable(backend: string) {
    backend != "" && FindSep(backend, 0) == |backend| && backend[|backend| - 1] != '_'
  }

  /** The separator the parser finds in `backend__tool` is the one that was written exactly when the
      backend neither contains a separator nor ends in half of one. */
  lemma FirstSepOfStr(k: ToolKey)
    requires k.backend != ""
    ensures FindSep(Str(k), 0) == |k.backend| <==> Addressable(k.backend)
  {
    var b, s := k.backend, Str(k);
    var p, n := FindSep(s, 0), |b|;
    assert SepAt(s, n);
    assert forall j :: 0 <= j < n - 1 ==> (SepAt(s, j) <==> SepAt(b, j));
    if b[n - 1] == '_' {
      assert SepAt(s, n - 1);
    } else if FindSep(b, 0) < n {
      assert SepAt(s, FindSep(b, 0));
    } else {
      assert forall j :: 0 <= j < n ==> !SepAt(s, j);
    }
  }

  /** Round trip with its exact condition: a rendered key parses back to itself if and only if the
      backend name is addressable and the tool name is not empty. */
  lemma ParseStr(k: ToolKey)
    ensures Parse(Str(k)) == Some(k) <==> Addressable(k.backend) && k.tool != ""
  {
    var s := Str(k);
    if k.backend == "" {
      assert SepAt(s, 0);
    } else {
      FirstSepOfStr(k);
      if Addressable(k.backend) && k.tool != "" {
        assert s[..|k.backend|] == k.backend && s[|k.backend| + 2..] == k.tool;
      }
    }
  }

  /** Two addressable keys never share a rendered name. */
  lemma StrInjective(a: ToolKey, b: ToolKey)
    requires Addressable(a.backend) && Addressable(b.backend) && a.tool != "" && b.tool != ""
    requires Str(a) == Str(b)
    ensures a == b
  {
    ParseStr(a);
    ParseStr(b);
  }

  /** A name the loader accepts whose tools cannot be called under their listed name:
      "a_" passes the "__" check, yet `a___t` is read as backend "a", tool "_t". */
  lemma TrailingUnderscoreMisparses()
    ensures FindSep("a_", 0) == |"a_"|
    ensures Parse(Str(ToolKey("a_", "t"))) == Some(ToolKey("a", "_t"))
  {
    assert !SepAt("a_", 0) && !SepAt("a_", 1);
    var s := Str(ToolKey("a_", "t"));
    assert s == "a___t";
    assert SepAt(s, 1) && !SepAt(s, 0);
    assert s[..1] == "a" && s[3..] == "_t";
  }
}
