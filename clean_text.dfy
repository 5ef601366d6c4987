/** `_clean_text`: collapse every whitespace run to one space, delete every
    character outside `[\w\s.,-]`, then strip surrounding whitespace. */
module CleanText {
  import opened Py

  /** `str.isspace()`, which is also what `\s` and `str.strip()` match in a
      Python 3 `str`. */
  predicate IsSpace(c: char) {
    || c == ' '
    || ('\t' <= c <= '\r')
    || ('\U{1C}' <= c <= '\U{1F}')
    || c == '\U{85}'
    || c == '\U{A0}'
    || c == '\U{1680}'
    || ('\U{2000}' <= c <= '\U{200A}')
    || c == '\U{2028}'
    || c == '\U{2029}'
    || c == '\U{202F}'
    || c == '\U{205F}'
    || c == '\U{3000}'
  }

  /** A character the class `[\w\s.,-]` matches. */
  predicate Allowed(isWord: char -> bool, c: char) {
    isWord(c) || IsSpace(c) || c == '.' || c == ',' || c == '-'
  }

  /** A character that can appear in cleaned text: the plain space, or a
      non-whitespace word character, '.', ',' or '-'. */
  predicate Permitted(isWord: char -> bool, c: char) {
    c == ' ' || (!IsSpace(c) && (isWord(c) || c == '.' || c == ',' || c == '-'))
  }

  predicate AllPermitted(isWord: char -> bool, t: string) {
    forall i :: 0 <= i < |t| ==> Permitted(isWord, t[i])
  }

  /** What every result of cleaning looks like: only permitted characters,
      and no whitespace at either end. */
  predicate CleanShape(isWord: char -> bool, t: string) {
    && AllPermitted(isWord, t)
    && (t != [] ==> !IsSpace(t[0]) && !IsSpace(t[|t| - 1]))
  }

  predicate HasAdjacentSpaces(s: string) {
    exists i :: 0 <= i < |s| - 1 && IsSpace(s[i]) && IsSpace(s[i + 1])
  }

  /** The texts that cleaning leaves unchanged. */
  predicate IsClean(isWord: char -> bool, t: string) {
    CleanShape(isWord, t) && !HasAdjacentSpaces(t)
  }

  /** No whitespace in `s` other than the plain space. */
  predicate OnlyPlainSpaces(s: string) {
    forall i :: 0 <= i < |s| ==> s[i] == ' ' || !IsSpace(s[i])
  }

  /** Every character of `s` is matched by `[\w\s.,-]`. */
  predicate AllAllowed(isWord: char -> bool, s: string) {
    forall i :: 0 <= i < |s| ==> Allowed(isWord, s[i])
  }

  /** Drops the leading whitespace of `s`: `str.lstrip()`. */
  function DropSpaces(s: string): (r: string)
    ensures |r| <= |s| && r == s[|s| - |r|..]
    ensures r != [] ==> !IsSpace(r[0])
    ensures forall i :: 0 <= i < |s| - |r| ==> IsSpace(s[i])
  {
    if s != [] && IsSpace(s[0]) then DropSpaces(s[1..]) else s
  }

  /** Drops the trailing whitespace of `s`: `str.rstrip()`. */
  function DropTrailingSpaces(s: string): (r: string)
    ensures |r| <= |s| && r == s[..|r|]
    ensures r != [] ==> !IsSpace(r[|r| - 1])
    ensures forall i :: |r| <= i < |s| ==> IsSpace(s[i])
  {
    if s != [] && IsSpace(s[|s| - 1]) then DropTrailingSpaces(s[..|s| - 1]) else s
  }

  /** `re.sub(r'\s+', ' ', s)`: each maximal whitespace run becomes one space. */
  function CollapseSpaces(s: string): (r: string)
    ensures |r| <= |s|
    ensures OnlyPlainSpaces(r)
    decreases |s|
  {
    if s == [] then []
    else if IsSpace(s[0]) then [' '] + CollapseSpaces(DropSpaces(s[1..]))
    else [s[0]] + CollapseSpaces(s[1..])
  }

  /** `re.sub(r'[^\w\s.,-]', '', s)`: deletes the characters the class rejects. */
  function KeepAllowed(isWord: char -> bool, s: string): (r: string)
    ensures |r| <= |s|
    ensures AllAllowed(isWord, r)
    ensures OnlyPlainSpaces(s) ==> OnlyPlainSpaces(r)
  {
    if s == [] then []
    else if Allowed(isWord, s[0]) then [s[0]] + KeepAllowed(isWord, s[1..])
    else KeepAllowed(isWord, s[1..])
  }

  lemma PermittedSlice(isWord: char -> bool, s: string, lo: int, hi: int)
    requires 0 <= lo <= hi <= |s| && AllPermitted(isWord, s)
    ensures AllPermitted(isWord, s[lo..hi])
  {
    assert forall i :: 0 <= i < hi - lo ==> s[lo..hi][i] == s[lo + i];
  }

  /** The three steps of `_clean_text` on a non-empty string; the last is
      `str.strip()`. */
  function CleanString(isWord: char -> bool, s: string): (r: string)
    ensures |r| <= |s|
    ensures CleanShape(isWord, r)
  {
    var kept := KeepAllowed(isWord, CollapseSpaces(s));
    var left := DropSpaces(kept);
    var r := DropTrailingSpaces(left);
    assert AllPermitted(isWord, kept);
    PermittedSlice(isWord, kept, |kept| - |left|, |kept|);
    PermittedSlice(isWord, left, 0, |r|);
    r
  }

  /** `_clean_text(text)`: a falsy value gives "", a string is cleaned, and
      any other truthy value makes `re.sub` raise TypeError. */
  function Clean(rt: Runtime, v: Value): (r: Result<string>)
    ensures !Truthy(v) ==> r == Ok("")
    ensures r.Ok? <==> !Truthy(v) || v.Str?
    ensures r.Err? ==> r.error == TypeError
    ensures r.Ok? ==> CleanShape(rt.isWord, r.value)
    ensures Truthy(v) && v.Str? ==> r == Ok(CleanString(rt.isWord, v.s))
  {
    if !Truthy(v) then Ok("")
    else match v
      case Str(s) => Ok(CleanString(rt.isWord, s))
      case _ => Err(TypeError)
  }

  // ---------------------------------------------------------------------
  // Fixed points of cleaning

  lemma {:induction false} CollapseIdentity(s: string)
    requires OnlyPlainSpaces(s) && !HasAdjacentSpaces(s)
    ensures CollapseSpaces(s) == s
    decreases |s|
  {
    if s != [] {
      var t := s[1..];
      assert OnlyPlainSpaces(t);
      assert !HasAdjacentSpaces(t) by {
        forall i | 0 <= i < |t| - 1 ensures !(IsSpace(t[i]) && IsSpace(t[i + 1])) {
          assert t[i] == s[i + 1] && t[i + 1] == s[i + 2];
        }
      }
      if IsSpace(s[0]) && t != [] {
        assert !IsSpace(t[0]);
      }
      CollapseIdentity(t);
    }
  }

  lemma {:induction false} CollapseShrinks(s: string)
    requires HasAdjacentSpaces(s)
    ensures |CollapseSpaces(s)| < |s|
    decreases |s|
  {
    var i :| 0 <= i < |s| - 1 && IsSpace(s[i]) && IsSpace(s[i + 1]);
    var t := s[1..];
    if IsSpace(s[0]) && IsSpace(s[1]) {
      assert |DropSpaces(t)| < |t|;
    } else {
      assert IsSpace(t[i - 1]) && IsSpace(t[i]);
      CollapseShrinks(t);
    }
  }

  lemma {:induction false} KeepAllowedIdentity(isWord: char -> bool, s: string)
    requires AllAllowed(isWord, s)
    ensures KeepAllowed(isWord, s) == s
  {
    if s != [] {
      assert AllAllowed(isWord, s[1..]) by {
        forall i | 0 <= i < |s| - 1 ensures Allowed(isWord, s[1..][i]) {
          assert s[1..][i] == s[i + 1];
        }
      }
      KeepAllowedIdentity(isWord, s[1..]);
    }
  }

  /** Cleaning leaves a string unchanged exactly when it is already clean. */
  lemma CleanStringFixedPoint(isWord: char -> bool, t: string)
    ensures CleanString(isWord, t) == t <==> IsClean(isWord, t)
  {
    if IsClean(isWord, t) {
      assert OnlyPlainSpaces(t);
      CollapseIdentity(t);
      assert AllAllowed(isWord, t);
      KeepAllowedIdentity(isWord, t);
    } else if CleanString(isWord, t) == t {
      assert HasAdjacentSpaces(t);
      CollapseShrinks(t);
      assert false;
    }
  }

  /** The same for `_clean_text` on any value: the strings it returns
      unchanged are exactly the clean ones. */
  lemma CleanFixedPoint(rt: Runtime, t: string)
    ensures Clean(rt, Str(t)) == Ok(t) <==> IsClean(rt.isWord, t)
  {
    CleanStringFixedPoint(rt.isWord, t);
  }

  // ---------------------------------------------------------------------
  // What survives cleaning

  /** The characters of `s` that are not whitespace, in order. */
  function NonSpaces(s: string): (r: string)
    ensures |r| <= |s|
    ensures forall i :: 0 <= i < |r| ==> !IsSpace(r[i])
  {
    if s == [] then [] else (if IsSpace(s[0]) then [] else [s[0]]) + NonSpaces(s[1..])
  }

  lemma NonSpacesCons(c: char, t: string)
    ensures NonSpaces([c] + t) == (if IsSpace(c) then [] else [c]) + NonSpaces(t)
  {
    assert ([c] + t)[1..] == t;
  }

  lemma {:induction false} NonSpacesAppend(s: string, t: string)
    ensures NonSpaces(s + t) == NonSpaces(s) + NonSpaces(t)
  {
    if s != [] {
      assert s + t == [s[0]] + (s[1..] + t);
      NonSpacesCons(s[0], s[1..] + t);
      NonSpacesAppend(s[1..], t);
      assert s == [s[0]] + s[1..];
      NonSpacesCons(s[0], s[1..]);
    } else {
      assert s + t == t;
    }
  }

  /** `KeepAllowed` is an order-preserving filter: it keeps exactly the
      allowed characters. */
  lemma {:induction false} KeepAllowedMembers(isWord: char -> bool, s: string)
    ensures forall c :: c in KeepAllowed(isWord, s) <==> c in s && Allowed(isWord, c)
  {
    if s != [] {
      KeepAllowedMembers(isWord, s[1..]);
      assert s == [s[0]] + s[1..];
      KeepAllowedCons(isWord, s[0], s[1..]);
    }
  }

  lemma {:induction false} KeepAllowedAppend(isWord: char -> bool, s: string, t: string)
    ensures KeepAllowed(isWord, s + t) == KeepAllowed(isWord, s) + KeepAllowed(isWord, t)
  {
    if s != [] {
      assert s + t == [s[0]] + (s[1..] + t);
      KeepAllowedCons(isWord, s[0], s[1..] + t);
      KeepAllowedAppend(isWord, s[1..], t);
      assert s == [s[0]] + s[1..];
      KeepAllowedCons(isWord, s[0], s[1..]);
    } else {
      assert s + t == t;
    }
  }

  lemma {:induction false} DropSpacesKeepsNonSpaces(s: string)
    ensures NonSpaces(DropSpaces(s)) == NonSpaces(s)
  {
    if s != [] && IsSpace(s[0]) {
      DropSpacesKeepsNonSpaces(s[1..]);
    }
  }

  lemma {:induction false} DropTrailingKeepsNonSpaces(s: string)
    ensures NonSpaces(DropTrailingSpaces(s)) == NonSpaces(s)
    decreases |s|
  {
    if s != [] && IsSpace(s[|s| - 1]) {
      var init := s[..|s| - 1];
      DropTrailingKeepsNonSpaces(init);
      assert s == init + [s[|s| - 1]];
      NonSpacesAppend(init, [s[|s| - 1]]);
      NonSpacesCons(s[|s| - 1], []);
    }
  }

  /** The whitespace substitution keeps every non-whitespace character, in
      order. */
  lemma {:induction false} CollapseKeepsNonSpaces(s: string)
    ensures NonSpaces(CollapseSpaces(s)) == NonSpaces(s)
    decreases |s|
  {
    if s != [] {
      if IsSpace(s[0]) {
        var rest := DropSpaces(s[1..]);
        CollapseKeepsNonSpaces(rest);
        DropSpacesKeepsNonSpaces(s[1..]);
        NonSpacesCons(' ', CollapseSpaces(rest));
      } else {
        CollapseKeepsNonSpaces(s[1..]);
        NonSpacesCons(s[0], CollapseSpaces(s[1..]));
      }
    }
  }

  lemma CollapseHead(s: string)
    requires s != []
    ensures CollapseSpaces(s) != [] && (IsSpace(CollapseSpaces(s)[0]) <==> IsSpace(s[0]))
  {
  }

  /** After the substitution no two whitespace characters are adjacent. */
  lemma {:induction false} CollapseSingleSpaces(s: string)
    ensures !HasAdjacentSpaces(CollapseSpaces(s))
    decreases |s|
  {
    if s != [] {
      var rest := if IsSpace(s[0]) then DropSpaces(s[1..]) else s[1..];
      var tail := CollapseSpaces(rest);
      CollapseSingleSpaces(rest);
      var r := CollapseSpaces(s);
      assert r == [r[0]] + tail;
      if IsSpace(s[0]) && rest != [] {
        CollapseHead(rest);
      }
      forall i | 0 <= i < |r| - 1 ensures !(IsSpace(r[i]) && IsSpace(r[i + 1])) {
        if i > 0 {
          assert r[i] == tail[i - 1] && r[i + 1] == tail[i];
        } else {
          assert r[1] == tail[0];
        }
      }
    }
  }

  lemma {:induction false} KeepAllowedNonSpaces(isWord: char -> bool, s: string)
    ensures NonSpaces(KeepAllowed(isWord, s)) == KeepAllowed(isWord, NonSpaces(s))
  {
    if s != [] {
      var c, rest := s[0], s[1..];
      assert s == [c] + rest;
      KeepAllowedNonSpaces(isWord, rest);
      KeepAllowedCons(isWord, c, rest);
      NonSpacesCons(c, rest);
      NonSpacesCons(c, KeepAllowed(isWord, rest));
      if IsSpace(c) {
        assert NonSpaces(s) == NonSpaces(rest);
        if Allowed(isWord, c) {
          assert KeepAllowed(isWord, s) == [c] + KeepAllowed(isWord, rest);
        }
      } else {
        assert NonSpaces(s) == [c] + NonSpaces(rest);
        KeepAllowedCons(isWord, c, NonSpaces(rest));
      }
    }
  }

  /** The non-whitespace characters of the cleaned text are exactly the
      allowed non-whitespace characters of the input, in order. */
  lemma CleanStringKeepsVisible(isWord: char -> bool, s: string)
    ensures NonSpaces(CleanString(isWord, s)) == KeepAllowed(isWord, NonSpaces(s))
  {
    var collapsed := CollapseSpaces(s);
    var kept := KeepAllowed(isWord, collapsed);
    var left := DropSpaces(kept);
    CollapseKeepsNonSpaces(s);
    KeepAllowedNonSpaces(isWord, collapsed);
    DropSpacesKeepsNonSpaces(kept);
    DropTrailingKeepsNonSpaces(left);
  }

  /** Cleaning gives the empty string exactly when the input holds no
      allowed non-whitespace character. */
  lemma CleanStringEmpty(isWord: char -> bool, s: string)
    ensures CleanString(isWord, s) == [] <==> KeepAllowed(isWord, NonSpaces(s)) == []
  {
    CleanStringKeepsVisible(isWord, s);
    var r := CleanString(isWord, s);
    if r != [] {
      VisibleHead(r);
    }
  }

  lemma VisibleHead(t: string)
    requires t != [] && !IsSpace(t[0])
    ensures NonSpaces(t) != []
  {
    assert t == [t[0]] + t[1..];
    NonSpacesCons(t[0], t[1..]);
  }

  /** The same for `_clean_text` on a string value: the text is emptied
      exactly when none of its characters is both allowed and not
      whitespace. */
  lemma CleanEmpty(rt: Runtime, s: string)
    ensures Clean(rt, Str(s)) == Ok("") <==> KeepAllowed(rt.isWord, NonSpaces(s)) == []
  {
    CleanStringEmpty(rt.isWord, s);
  }

  // ---------------------------------------------------------------------
  // Each whitespace run becomes exactly one space

  predicate AllSpaces(ws: string) {
    forall i :: 0 <= i < |ws| ==> IsSpace(ws[i])
  }

  /** `lstrip()` removes a whole whitespace run and stops at the first
      visible character. */
  lemma {:induction false} DropRun(ws: string, t: string)
    requires AllSpaces(ws)
    requires t == [] || !IsSpace(t[0])
    ensures DropSpaces(ws + t) == t
    decreases |ws|
  {
    if ws == [] {
      assert ws + t == t;
    } else {
      assert (ws + t)[0] == ws[0];
      assert (ws + t)[1..] == ws[1..] + t;
      DropRun(ws[1..], t);
    }
  }

  /** A whitespace run of any kind and length before a visible character
      becomes one plain space. */
  lemma CollapseRun(ws: string, c: char, t: string)
    requires ws != [] && AllSpaces(ws) && !IsSpace(c)
    ensures CollapseSpaces(ws + [c] + t) == [' ', c] + CollapseSpaces(t)
  {
    var s := ws + [c] + t;
    assert s[0] == ws[0];
    assert s[1..] == ws[1..] + ([c] + t);
    DropRun(ws[1..], [c] + t);
    CollapseNonSpace(c, t);
  }

  /** A whitespace run at the end of the text also becomes one space. */
  lemma CollapseTrailingRun(ws: string)
    requires ws != [] && AllSpaces(ws)
    ensures CollapseSpaces(ws) == [' ']
  {
    assert ws[1..] + [] == ws[1..];
    DropRun(ws[1..], []);
  }

  // ---------------------------------------------------------------------
  // Cleaning is not idempotent

  lemma CollapseNonSpace(c: char, t: string)
    requires !IsSpace(c)
    ensures CollapseSpaces([c] + t) == [c] + CollapseSpaces(t)
  {
    assert ([c] + t)[1..] == t;
  }

  lemma CollapseOneSpace(c: char, t: string)
    requires !IsSpace(c)
    ensures CollapseSpaces([' ', c] + t) == [' ', c] + CollapseSpaces(t)
  {
    assert ([' ', c] + t)[1..] == [c] + t;
    CollapseNonSpace(c, t);
  }

  lemma CollapseTwoSpaces(c: char, t: string)
    requires !IsSpace(c)
    ensures CollapseSpaces([' ', ' ', c] + t) == [' ', c] + CollapseSpaces(t)
  {
    assert ([' ', ' ', c] + t)[1..] == [' ', c] + t;
    assert ([' ', c] + t)[1..] == [c] + t;
    CollapseNonSpace(c, t);
  }

  lemma KeepAllowedCons(w: char -> bool, c: char, t: string)
    ensures KeepAllowed(w, [c] + t) == (if Allowed(w, c) then [c] else []) + KeepAllowed(w, t)
  {
    assert ([c] + t)[1..] == t;
  }

  lemma StripUnchanged(t: string)
    requires t != [] && !IsSpace(t[0]) && !IsSpace(t[|t| - 1])
    ensures DropSpaces(t) == t && DropTrailingSpaces(t) == t
  {
  }

  lemma CollapseFirstPass(a: char, x: char, b: char)
    requires !IsSpace(a) && !IsSpace(x) && !IsSpace(b)
    ensures CollapseSpaces([a, ' ', x, ' ', b]) == [a, ' ', x, ' ', b]
  {
    calc {
      CollapseSpaces([a, ' ', x, ' ', b]);
      == { assert [a, ' ', x, ' ', b] == [a] + [' ', x, ' ', b]; }
      CollapseSpaces([a] + [' ', x, ' ', b]);
      == { CollapseNonSpace(a, [' ', x, ' ', b]); }
      [a] + CollapseSpaces([' ', x, ' ', b]);
      == { assert [' ', x, ' ', b] == [' ', x] + [' ', b]; CollapseOneSpace(x, [' ', b]); }
      [a] + ([' ', x] + CollapseSpaces([' ', b]));
      == { assert [' ', b] == [' ', b] + []; CollapseOneSpace(b, []); }
      [a] + ([' ', x] + ([' ', b] + CollapseSpaces([])));
    }
    assert [a] + ([' ', x] + ([' ', b] + [])) == [a, ' ', x, ' ', b];
  }

  lemma KeepFirstPass(w: char -> bool, a: char, x: char, b: char)
    requires w(a) && w(b) && !Allowed(w, x)
    ensures KeepAllowed(w, [a, ' ', x, ' ', b]) == [a, ' ', ' ', b]
  {
    KeepAllowedCons(w, b, []);
    KeepAllowedCons(w, ' ', [b]);
    KeepAllowedCons(w, x, [' ', b]);
    KeepAllowedCons(w, ' ', [x, ' ', b]);
    KeepAllowedCons(w, a, [' ', x, ' ', b]);
  }

  lemma CollapseSecondPass(a: char, b: char)
    requires !IsSpace(a) && !IsSpace(b)
    ensures CollapseSpaces([a, ' ', ' ', b]) == [a, ' ', b]
  {
    calc {
      CollapseSpaces([a, ' ', ' ', b]);
      == { assert [a, ' ', ' ', b] == [a] + [' ', ' ', b]; }
      CollapseSpaces([a] + [' ', ' ', b]);
      == { CollapseNonSpace(a, [' ', ' ', b]); }
      [a] + CollapseSpaces([' ', ' ', b]);
      == { assert [' ', ' ', b] == [' ', ' ', b] + []; CollapseTwoSpaces(b, []); }
      [a] + ([' ', b] + CollapseSpaces([]));
    }
    assert [a] + ([' ', b] + []) == [a, ' ', b];
  }

  lemma KeepSecondPass(w: char -> bool, a: char, b: char)
    requires w(a) && w(b)
    ensures KeepAllowed(w, [a, ' ', b]) == [a, ' ', b]
  {
    KeepAllowedCons(w, b, []);
    KeepAllowedCons(w, ' ', [b]);
    KeepAllowedCons(w, a, [' ', b]);
  }

  /** `_clean_text` is not idempotent. Between two word characters, a
      character that is neither a word character, whitespace nor one of
      ".,-" sits between two single spaces: the collapse step changes
      nothing, the filter deletes it and leaves two adjacent spaces, and a
      second pass collapses them to one. */
  lemma CleanNotIdempotent(rt: Runtime, a: char, x: char, b: char)
    requires rt.isWord(a) && rt.isWord(b) && !IsSpace(a) && !IsSpace(b)
    requires !Allowed(rt.isWord, x)
    ensures Clean(rt, Str([a, ' ', x, ' ', b])) == Ok([a, ' ', ' ', b])
    ensures Clean(rt, Str([a, ' ', ' ', b])) == Ok([a, ' ', b])
  {
    CleanFirstPass(rt.isWord, a, x, b);
    CleanSecondPass(rt.isWord, a, b);
  }

  lemma CleanFirstPass(w: char -> bool, a: char, x: char, b: char)
    requires w(a) && w(b) && !IsSpace(a) && !IsSpace(b) && !Allowed(w, x)
    ensures CleanString(w, [a, ' ', x, ' ', b]) == [a, ' ', ' ', b]
  {
    CollapseFirstPass(a, x, b);
    KeepFirstPass(w, a, x, b);
    StripUnchanged([a, ' ', ' ', b]);
  }

  lemma CleanSecondPass(w: char -> bool, a: char, b: char)
    requires w(a) && w(b) && !IsSpace(a) && !IsSpace(b)
    ensures CleanString(w, [a, ' ', ' ', b]) == [a, ' ', b]
  {
    CollapseSecondPass(a, b);
    KeepSecondPass(w, a, b);
    StripUnchanged([a, ' ', b]);
  }

  /** The instance `"a ! b"`, which cleans to `"a  b"` and then to `"a b"`. */
  lemma CleanNotIdempotentExample(rt: Runtime)
    requires rt.isWord('a') && rt.isWord('b') && !rt.isWord('!')
    ensures Clean(rt, Str("a ! b")) == Ok("a  b")
    ensures Clean(rt, Str("a  b")) == Ok("a b")
  {
    assert !IsSpace('a') && !IsSpace('b') && !IsSpace('!');
    CleanNotIdempotent(rt, 'a', '!', 'b');
  }
}
