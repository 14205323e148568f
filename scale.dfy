/**
 The `SharedThemeDart` namespace of lib/scale/scale.js: it derives two CSS
 custom properties, pixels per density-independent pixel (dp) and pixels per
 scale-independent pixel (sp), from the device pixel ratio and writes them on
 the root element's inline style.

 Three modules follow the three concerns of that object:
 - CssName: the rule that gives a CSS variable name its `--` prefix;
 - Density: the two reference densities and the dp/sp scale factors;
 - Theme:   the root element's style as a map, and the object whose
            methods write to it (including the two calls made at load time).
 */

module CssName {

  /** The prefix every CSS custom property name carries. */
  const Prefix: string := "--"

  /**
   `startsWith('--')`: true iff `name` already begins with the custom-property
   prefix, that is, its first two characters are both `-`.
   */
  predicate HasPrefix(name: string)
    ensures HasPrefix(name) <==> |name| >= 2 && name[0] == '-' && name[1] == '-'
  {
    Prefix <= name
  }

  /**
   The name under which `setRootCssVar` stores a property: `name` itself when
   it already starts with `--`, otherwise `--` followed by `name`.
   The result always carries the prefix and is at most two characters longer.
   */
  function Normalize(name: string): (r: string)
    ensures HasPrefix(r)
    ensures |name| <= |r| <= |name| + |Prefix|
  {
    if HasPrefix(name) then name else Prefix + name
  }

  /** A name that already starts with `--` is stored as written. */
  lemma NormalizePrefixed(name: string)
    requires HasPrefix(name)
    ensures Normalize(name) == name
  {
  }

  /** A name without the prefix gets it exactly once. */
  lemma NormalizeUnprefixed(name: string)
    requires !HasPrefix(name)
    ensures Normalize(name) == Prefix + name
    ensures Normalize(name)[|Prefix|..] == name
  {
  }

  /** The stored name still ends with the name that was given. */
  lemma NormalizeEndsWithName(name: string)
    ensures Normalize(name)[|Normalize(name)| - |name|..] == name
  {
  }

  /** Normalising an already normalised name changes nothing. */
  lemma NormalizeIdempotent(name: string)
    ensures Normalize(Normalize(name)) == Normalize(name)
  {
  }

  /**
   The prefix is never doubled: the stored name begins with `----` only when
   the given name already did, so `--x` never becomes `----x`.
   */
  lemma NormalizeNeverDoubles(name: string)
    ensures Prefix + Prefix <= Normalize(name) ==> Prefix + Prefix <= name
  {
    if !HasPrefix(name) {
      assert (Prefix + name)[2..] == name;
    }
  }

  /**
   Exactly which names are stored under `target`: `target` must carry the
   prefix, and it is reached either from itself or, when the given name has
   no prefix, from the name with the prefix added.
   */
  lemma NormalizePreimage(name: string, target: string)
    ensures Normalize(name) == target <==>
      HasPrefix(target) && (name == target || (!HasPrefix(name) && Prefix + name == target))
  {
    if HasPrefix(name) && Prefix + name == target && name != target {
      assert |target| == |name| + 2;
    }
  }
}

module Density {

  /** Reference density-independent pixels per inch (`dpPerInch`). */
  const DpPerInch: real := 160.0

  /** Reference scale-independent pixels per inch (`spPerInch`). */
  const SpPerInch: real := 96.0

  /** CSS pixels per inch, the numerator both factors share. */
  const CssPxPerInch: real := 96.0

  /**
   Device pixels per dp for a device pixel ratio `ratio`.
   With the constants above this is three fifths of the ratio.
   */
  function PxPerDp(ratio: real): (f: real)
    ensures f == ratio * 3.0 / 5.0
    ensures f * DpPerInch == ratio * CssPxPerInch
  {
    (ratio * CssPxPerInch) / DpPerInch
  }

  /**
   Device pixels per sp for a device pixel ratio `ratio`.
   Since the sp reference density equals the CSS density, this is the ratio
   itself.
   */
  function PxPerSp(ratio: real): (f: real)
    ensures f == ratio
    ensures f * SpPerInch == ratio * CssPxPerInch
  {
    (ratio * CssPxPerInch) / SpPerInch
  }

  /** One sp is five thirds of a dp: the two factors are in a fixed ratio. */
  lemma DpSpProportion(ratio: real)
    ensures PxPerDp(ratio) * DpPerInch == PxPerSp(ratio) * SpPerInch
    ensures 5.0 * PxPerDp(ratio) == 3.0 * PxPerSp(ratio)
  {
  }

  /** For a positive ratio both factors are positive and a dp is smaller than an sp. */
  lemma FactorsPositive(ratio: real)
    requires ratio > 0.0
    ensures 0.0 < PxPerDp(ratio) < PxPerSp(ratio)
  {
  }

  /** Both factors grow strictly with the device pixel ratio. */
  lemma FactorsMonotonic(r1: real, r2: real)
    requires r1 < r2
    ensures PxPerDp(r1) < PxPerDp(r2)
    ensures PxPerSp(r1) < PxPerSp(r2)
  {
  }

  /** The three end-to-end scenarios: ratios 1, 2 and 1.5. */
  lemma Scenarios()
    ensures PxPerDp(1.0) == 0.6 && PxPerSp(1.0) == 1.0
    ensures PxPerDp(2.0) == 1.2 && PxPerSp(2.0) == 2.0
    ensures PxPerDp(1.5) == 0.9 && PxPerSp(1.5) == 1.5
  {
  }
}

module Theme {
  import opened CssName
  import opened Density

  /** The dp property name (`cssVarDp`). */
  const CssVarDp: string := "--px-per-dp"

  /** The sp property name (`cssVarSp`). */
  const CssVarSp: string := "--px-per-sp"

  /** The root element's inline style, as a table from property name to value. */
  type Style = map<string, real>

  /**
   The style after `setProperty` of the normalised `name` to `value`: that one
   key holds `value`, and every other key is exactly as before.
   */
  function SetVar(style: Style, name: string, value: real): (s: Style)
    ensures Normalize(name) in s && s[Normalize(name)] == value
    ensures s.Keys == style.Keys + {Normalize(name)}
    ensures forall k :: k in style && k != Normalize(name) ==> s[k] == style[k]
  {
    style[Normalize(name) := value]
  }

  /** Writing the same value to the same property twice is the same as once. */
  lemma SetVarIdempotent(style: Style, name: string, value: real)
    ensures SetVar(SetVar(style, name, value), name, value) == SetVar(style, name, value)
  {
  }

  /** Two writes whose names normalise to the same key: the later one wins. */
  lemma SetVarLastWins(style: Style, n1: string, v1: real, n2: string, v2: real)
    requires Normalize(n1) == Normalize(n2)
    ensures SetVar(SetVar(style, n1, v1), n2, v2) == SetVar(style, n2, v2)
  {
  }

  /** Writes to properties with different normalised names commute. */
  lemma SetVarCommutes(style: Style, n1: string, v1: real, n2: string, v2: real)
    requires Normalize(n1) != Normalize(n2)
    ensures SetVar(SetVar(style, n1, v1), n2, v2) == SetVar(SetVar(style, n2, v2), n1, v1)
  {
  }

  /** `px-test` and `--px-test` name the same property. */
  lemma SetVarPrefixScenario(style: Style)
    ensures SetVar(style, "px-test", 3.14) == style["--px-test" := 3.14]
    ensures SetVar(style, "--px-test2", 2.71) == style["--px-test2" := 2.71]
  {
    assert !HasPrefix("px-test") by { assert "px-test"[0] != '-'; }
    assert Prefix + "px-test" == "--px-test";
    assert HasPrefix("--px-test2") by { assert "--px-test2"[..2] == Prefix; }
  }

  /** The two property names are already prefixed, so they are stored as written. */
  lemma CssVarsNormalized()
    ensures Normalize(CssVarDp) == CssVarDp
    ensures Normalize(CssVarSp) == CssVarSp
  {
    assert CssVarDp[..2] == Prefix;
    assert CssVarSp[..2] == Prefix;
  }

  /** The two property names differ, so neither write clobbers the other. */
  lemma CssVarsDistinct()
    ensures CssVarDp != CssVarSp
  {
    assert CssVarDp[9] != CssVarSp[9];
  }

  /**
   The style after the load-time sequence: the dp write, then the sp write.
   Each call reads the device pixel ratio afresh, so the two writes are given
   the ratio each of them read, `dpRatio` and `spRatio`.
   */
  function AfterLoad(style: Style, dpRatio: real, spRatio: real): (s: Style)
    ensures CssVarDp in s && s[CssVarDp] == dpRatio * 3.0 / 5.0
    ensures CssVarSp in s && s[CssVarSp] == spRatio
    ensures s.Keys == style.Keys + {CssVarDp, CssVarSp}
    ensures forall k :: k in style && k != CssVarDp && k != CssVarSp ==> s[k] == style[k]
  {
    CssVarsNormalized();
    CssVarsDistinct();
    SetVar(SetVar(style, CssVarDp, PxPerDp(dpRatio)), CssVarSp, PxPerSp(spRatio))
  }

  /**
   Doing the two load-time writes in the other order gives the same map
   (the order in which the style lists its declarations is not modelled).
   */
  lemma LoadOrderIrrelevant(style: Style, dpRatio: real, spRatio: real)
    ensures AfterLoad(style, dpRatio, spRatio)
         == SetVar(SetVar(style, CssVarSp, PxPerSp(spRatio)), CssVarDp, PxPerDp(dpRatio))
  {
    CssVarsNormalized();
    CssVarsDistinct();
    SetVarCommutes(style, CssVarDp, PxPerDp(dpRatio), CssVarSp, PxPerSp(spRatio));
  }

  /** Running the load sequence again with the same ratios changes nothing. */
  lemma AfterLoadIdempotent(style: Style, dpRatio: real, spRatio: real)
    ensures AfterLoad(AfterLoad(style, dpRatio, spRatio), dpRatio, spRatio)
         == AfterLoad(style, dpRatio, spRatio)
  {
  }

  /**
   One call `setRootCssVar(name, value)`. The method is public, so a client
   may make any sequence of such calls; the load-time setup is one of them.
   */
  datatype Write = Write(name: string, value: real)

  /** The property a call writes to: the prefixed name, reached by adding `--` at most once. */
  function Key(w: Write): (k: string)
    ensures HasPrefix(k)
    ensures k == w.name || (!HasPrefix(w.name) && k == Prefix + w.name)
  {
    Normalize(w.name)
  }

  /**
   The style after the calls `ws`, made in order, starting from `style`.
   No call removes a property, and the last call's value is the one its key holds.
   */
  function ApplyWrites(style: Style, ws: seq<Write>): (s: Style)
    ensures style.Keys <= s.Keys
    ensures ws != [] ==> Key(ws[|ws| - 1]) in s && s[Key(ws[|ws| - 1])] == ws[|ws| - 1].value
    decreases |ws|
  {
    if ws == [] then style
    else SetVar(ApplyWrites(style, ws[..|ws| - 1]), ws[|ws| - 1].name, ws[|ws| - 1].value)
  }

  /** The properties the calls `ws` write to. */
  ghost function Written(ws: seq<Write>): set<string> {
    set i | 0 <= i < |ws| :: Key(ws[i])
  }

  /** The properties written by one more call are those before and that call's key. */
  lemma WrittenSnoc(ws: seq<Write>)
    requires ws != []
    ensures Written(ws) == Written(ws[..|ws| - 1]) + {Key(ws[|ws| - 1])}
  {
    var n := |ws| - 1;
    forall k | k in Written(ws) ensures k in Written(ws[..n]) + {Key(ws[n])} {
      var i :| 0 <= i < |ws| && Key(ws[i]) == k;
      if i < n {
        assert ws[..n][i] == ws[i];
      }
    }
    forall k | k in Written(ws[..n]) ensures k in Written(ws) {
      var i :| 0 <= i < n && Key(ws[..n][i]) == k;
      assert ws[i] == ws[..n][i];
    }
  }

  /** The calls add exactly the keys they write to. */
  lemma {:induction false} ApplyWritesKeys(style: Style, ws: seq<Write>)
    ensures ApplyWrites(style, ws).Keys == style.Keys + Written(ws)
  {
    if ws != [] {
      var n := |ws| - 1;
      ApplyWritesKeys(style, ws[..n]);
      WrittenSnoc(ws);
    }
  }

  /** A key holds the value of the last call that writes to it ... */
  lemma {:induction false} ApplyWritesLastWins(style: Style, ws: seq<Write>, i: nat)
    requires i < |ws|
    requires forall j :: i < j < |ws| ==> Key(ws[j]) != Key(ws[i])
    ensures Key(ws[i]) in ApplyWrites(style, ws)
    ensures ApplyWrites(style, ws)[Key(ws[i])] == ws[i].value
  {
    var n := |ws| - 1;
    if i < n {
      ApplyWritesLastWins(style, ws[..n], i);
    }
  }

  /** ... and a key no call writes to keeps its old entry, or stays absent. */
  lemma {:induction false} ApplyWritesUntouched(style: Style, ws: seq<Write>, k: string)
    requires forall j :: 0 <= j < |ws| ==> Key(ws[j]) != k
    ensures k in ApplyWrites(style, ws) <==> k in style
    ensures k in style ==> ApplyWrites(style, ws)[k] == style[k]
  {
    if ws != [] {
      ApplyWritesUntouched(style, ws[..|ws| - 1], k);
    }
  }

  /** Making the calls `ws1 + ws2` is making `ws1`, then `ws2`, on the result. */
  lemma {:induction false} ApplyWritesAppend(style: Style, ws1: seq<Write>, ws2: seq<Write>)
    ensures ApplyWrites(style, ws1 + ws2) == ApplyWrites(ApplyWrites(style, ws1), ws2)
    decreases |ws2|
  {
    if ws2 == [] {
      assert ws1 + ws2 == ws1;
    } else {
      var n := |ws2| - 1;
      assert (ws1 + ws2)[..|ws1 + ws2| - 1] == ws1 + ws2[..n];
      ApplyWritesAppend(style, ws1, ws2[..n]);
    }
  }

  /**
   The two calls made at load time: first `--px-per-dp` with the dp factor of
   `dpRatio`, then `--px-per-sp` with the sp factor of `spRatio`. Both names
   are stored as written, and they are distinct.
   */
  function LoadTrace(dpRatio: real, spRatio: real): (ws: seq<Write>)
    ensures |ws| == 2
    ensures Key(ws[0]) == CssVarDp && ws[0].value == dpRatio * 3.0 / 5.0
    ensures Key(ws[1]) == CssVarSp && ws[1].value == spRatio
    ensures Key(ws[0]) != Key(ws[1])
  {
    CssVarsNormalized();
    CssVarsDistinct();
    [Write(CssVarDp, PxPerDp(dpRatio)), Write(CssVarSp, PxPerSp(spRatio))]
  }

  /** The load-time style is the result of that two-call trace. */
  lemma AfterLoadIsTrace(style: Style, dpRatio: real, spRatio: real)
    ensures AfterLoad(style, dpRatio, spRatio) == ApplyWrites(style, LoadTrace(dpRatio, spRatio))
  {
    var ws := LoadTrace(dpRatio, spRatio);
    assert ws[..1][..0] == [];
    assert ApplyWrites(style, ws[..1]) == SetVar(style, CssVarDp, PxPerDp(dpRatio));
  }


  /**
   The `SharedThemeDart` object. Its constants are the module constants above;
   the state its methods change is the document root's inline style, held in
   `rootStyle`. The device pixel ratio is passed to each method instead of
   being read from the window.
   */
  class SharedThemeDart {
    var rootStyle: Style

    /**
     Scaffolding with no counterpart in the source: the document's root style
     as found when the script loads is `initial`.
     */
    constructor (initial: Style)
      ensures rootStyle == initial
    {
      rootStyle := initial;
    }

    /** `setRootCssVar`: adds the `--` prefix if needed, then sets that one property. */
    method SetRootCssVar(name: string, value: real)
      modifies this
      ensures rootStyle == SetVar(old(rootStyle), name, value)
      ensures Normalize(name) in rootStyle && rootStyle[Normalize(name)] == value
      ensures forall k :: k != Normalize(name) ==>
        (k in rootStyle <==> k in old(rootStyle)) &&
        (k in rootStyle ==> rootStyle[k] == old(rootStyle)[k])
    {
      var key := name;
      if !HasPrefix(key) {
        key := Prefix + key;
      }
      rootStyle := rootStyle[key := value];
    }

    /** `setPxPerDp`: stores three fifths of the ratio under `--px-per-dp`. */
    method SetPxPerDp(devicePixelRatio: real)
      modifies this
      ensures rootStyle == old(rootStyle)[CssVarDp := devicePixelRatio * 3.0 / 5.0]
    {
      CssVarsNormalized();
      SetRootCssVar(CssVarDp, PxPerDp(devicePixelRatio));
    }

    /** `setPxPerSp`: stores the ratio itself under `--px-per-sp`. */
    method SetPxPerSp(devicePixelRatio: real)
      modifies this
      ensures rootStyle == old(rootStyle)[CssVarSp := devicePixelRatio]
    {
      CssVarsNormalized();
      SetRootCssVar(CssVarSp, PxPerSp(devicePixelRatio));
    }

    /**
     The load-time setup: `setPxPerDp` and then `setPxPerSp`, each with the
     ratio it reads (`dpRatio`, then `spRatio`). Afterwards both properties
     hold their factors and every other property is untouched.
     */
    method SetupDefaultScales(dpRatio: real, spRatio: real)
      modifies this
      ensures rootStyle == AfterLoad(old(rootStyle), dpRatio, spRatio)
      ensures rootStyle[CssVarDp] == dpRatio * 3.0 / 5.0
      ensures rootStyle[CssVarSp] == spRatio
      ensures forall k :: k != CssVarDp && k != CssVarSp ==>
        (k in rootStyle <==> k in old(rootStyle)) &&
        (k in rootStyle ==> rootStyle[k] == old(rootStyle)[k])
    {
      SetPxPerDp(dpRatio);
      SetPxPerSp(spRatio);
      CssVarsNormalized();
      CssVarsDistinct();
    }
  }
}
