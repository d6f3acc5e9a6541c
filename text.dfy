/** The JavaScript string operations the handlers and pages rely on:
    `trim`, `toLowerCase`/`toUpperCase`, `includes`, `split(' ')`, and the
    name-initials expression `name.split(' ').map(n => n[0]).join('').toUpperCase()`. */
module Text {
  import opened Common

  /** The code points JavaScript's `trim` removes: WhiteSpace and LineTerminator. */
  const Whitespace: set<char> := {
    '\t', '\n', '\U{B}', '\U{C}', '\r', ' ', '\U{A0}', '\U{1680}',
    '\U{2000}', '\U{2001}', '\U{2002}', '\U{2003}', '\U{2004}', '\U{2005}',
    '\U{2006}', '\U{2007}', '\U{2008}', '\U{2009}', '\U{200A}',
    '\U{2028}', '\U{2029}', '\U{202F}', '\U{205F}', '\U{3000}', '\U{FEFF}'
  }

  predicate IsSpace(c: char)
  {
    c in Whitespace
  }

  /** Every character of `s` is whitespace (this includes the empty string). */
  predicate IsBlank(s: string)
  {
    forall i | 0 <= i < |s| :: IsSpace(s[i])
  }

  function TrimStart(s: string): (r: string)
    ensures |r| <= |s| && r == s[|s| - |r|..]
    ensures r != [] ==> !IsSpace(r[0])
    ensures forall i | 0 <= i < |s| - |r| :: IsSpace(s[i])
    decreases |s|
  {
    if s != [] && IsSpace(s[0]) then TrimStart(s[1..]) else s
  }

  function TrimEnd(s: string): (r: string)
    ensures |r| <= |s| && r == s[..|r|]
    ensures r != [] ==> !IsSpace(r[|r| - 1])
    ensures forall i | |r| <= i < |s| :: IsSpace(s[i])
    decreases |s|
  {
    if s != [] && IsSpace(s[|s| - 1]) then TrimEnd(s[..|s| - 1]) else s
  }

  /** `s.trim()`: the empty string exactly when `s` is blank, and otherwise a
      contiguous part of `s` that starts and ends with a non-space. */
  function Trim(s: string): (r: string)
    ensures |r| == 0 <==> IsBlank(s)
    ensures r != [] ==> !IsSpace(r[0]) && !IsSpace(r[|r| - 1])
    ensures |r| <= |s|
  {
    var t := TrimStart(s);
    var r := TrimEnd(t);
    TrimmedEmptyMeansBlank(s, t, r);
    r
  }

  lemma TrimmedEmptyMeansBlank(s: string, t: string, r: string)
    requires t == TrimStart(s) && r == TrimEnd(t)
    ensures r == [] ==> IsBlank(s)
  {
    if r == [] {
      forall i | 0 <= i < |s| ensures IsSpace(s[i]) {
        if i >= |s| - |t| {
          assert s[i] == t[i - (|s| - |t|)];
        }
      }
    }
  }

  /** `!x || x.trim().length === 0` for an optional string `x`. */
  predicate MissingOrBlank(s: Option<string>)
  {
    !Truthy(s) || |Trim(s.value)| == 0
  }

  /** `String.prototype.toLowerCase` on the ASCII letters. */
  function LowerChar(c: char): char
  {
    if 'A' <= c <= 'Z' then (c as int + 32) as char else c
  }

  function UpperChar(c: char): char
  {
    if 'a' <= c <= 'z' then (c as int - 32) as char else c
  }

  function ToLower(s: string): string
  {
    seq(|s|, i requires 0 <= i < |s| => LowerChar(s[i]))
  }

  function ToUpper(s: string): string
  {
    seq(|s|, i requires 0 <= i < |s| => UpperChar(s[i]))
  }

  /** `s.includes(part)`. */
  predicate Contains(s: string, part: string)
    decreases |s|
  {
    part <= s || (s != [] && Contains(s[1..], part))
  }

  /** `includes` holds exactly when `part` starts at some position of `s`. */
  lemma {:induction false} ContainsAt(s: string, part: string)
    ensures Contains(s, part) <==> exists i | 0 <= i <= |s| :: part <= s[i..]
    decreases |s|
  {
    if s != [] {
      ContainsAt(s[1..], part);
      if exists i | 0 <= i <= |s| :: part <= s[i..] {
        var i :| 0 <= i <= |s| && part <= s[i..];
        if i > 0 {
          assert s[1..][i - 1..] == s[i..];
        }
      }
      if Contains(s[1..], part) {
        var j :| 0 <= j <= |s[1..]| && part <= s[1..][j..];
        assert s[1..][j..] == s[j + 1..];
      }
    } else {
      assert s[0..] == s;
    }
  }

  /** `s.split(' ')`: the pieces between single spaces, empty pieces included,
      so that there is always at least one piece. */
  function Split(s: string): (words: seq<string>)
    ensures |words| >= 1
    decreases |s|
  {
    if s == [] then [""]
    else
      var rest := Split(s[1..]);
      if s[0] == ' ' then [""] + rest
      else [[s[0]] + rest[0]] + rest[1..]
  }

  /** `words.join(' ')`. */
  function Join(words: seq<string>): string
    requires |words| >= 1
  {
    if |words| == 1 then words[0] else words[0] + " " + Join(words[1..])
  }

  /** `words.map(n => n[0]).join('')`: an empty piece gives `undefined`,
      which `join` writes as nothing. */
  function Heads(words: seq<string>): string
  {
    if words == [] then []
    else (if words[0] == [] then [] else [words[0][0]]) + Heads(words[1..])
  }

  /** The avatar initials computed from a display name. */
  function Initials(name: string): string
  {
    ToUpper(Heads(Split(name)))
  }

  /** Reference definition of the initials, read off the characters directly:
      every non-space character that follows a space (or starts the string
      when `afterSpace` holds). */
  function WordStarts(s: string, afterSpace: bool): string
    decreases |s|
  {
    if s == [] then []
    else (if s[0] != ' ' && afterSpace then [s[0]] else []) + WordStarts(s[1..], s[0] == ' ')
  }

  /** Splitting on spaces and joining the pieces back with spaces restores the string. */
  lemma {:induction false} SplitJoin(s: string)
    ensures Join(Split(s)) == s
    ensures forall w | w in Split(s) :: ' ' !in w
    decreases |s|
  {
    if s != [] {
      var rest := Split(s[1..]);
      SplitJoin(s[1..]);
      if s[0] == ' ' {
        assert ([""] + rest)[1..] == rest;
        assert s == " " + s[1..];
      } else {
        var words := [[s[0]] + rest[0]] + rest[1..];
        assert words[1..] == rest[1..];
        if |rest| > 1 {
          assert Join(rest) == rest[0] + " " + Join(rest[1..]);
        }
        assert s == [s[0]] + s[1..];
        assert rest[0] in rest;
        forall w | w in words ensures ' ' !in w {
          if w != words[0] {
            assert w in rest;
          }
        }
      }
    }
  }

  lemma {:induction false} HeadsOfSplit(s: string)
    ensures Heads(Split(s)) == WordStarts(s, true)
    ensures Heads(Split(s)[1..]) == WordStarts(s, false)
    decreases |s|
  {
    if s != [] {
      var rest := Split(s[1..]);
      HeadsOfSplit(s[1..]);
      if s[0] == ' ' {
        assert Split(s) == [""] + rest;
        assert Split(s)[1..] == rest;
      } else {
        var words := [[s[0]] + rest[0]] + rest[1..];
        assert Split(s) == words;
        assert words[1..] == rest[1..];
      }
    }
  }

  /** The initials are the upper-cased first characters of the space-separated words. */
  lemma InitialsAreWordStarts(name: string)
    ensures Initials(name) == ToUpper(WordStarts(name, true))
    ensures |Initials(name)| <= |name|
  {
    HeadsOfSplit(name);
    WordStartsLength(name, true);
  }

  lemma {:induction false} WordStartsLength(s: string, afterSpace: bool)
    ensures |WordStarts(s, afterSpace)| <= |s|
    decreases |s|
  {
    if s != [] {
      WordStartsLength(s[1..], s[0] == ' ');
    }
  }

  /** Lower-casing is idempotent, and a lower-cased string has no ASCII capitals. */
  lemma LowerIdempotent(s: string)
    ensures ToLower(ToLower(s)) == ToLower(s)
    ensures forall i | 0 <= i < |s| :: !('A' <= ToLower(s)[i] <= 'Z')
  {
  }

  /** The empty string is part of every string, so an empty search matches everything. */
  lemma ContainsEmpty(s: string)
    ensures Contains(s, "")
  {
  }
}
