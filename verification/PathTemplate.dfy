/** Percent-encoding of a path segment (section 2.1 of RFC 3986), as Go's `url.PathEscape` does it.
    A text is a sequence of bytes, each written as the character with its value. */
module PathEscape {
  import opened Common

  predicate IsByte(c: char) { c as int < 256 }
  predicate IsText(s: string) { forall i :: 0 <= i < |s| ==> IsByte(s[i]) }

  predicate Plain(c: char) {
    || 'a' <= c <= 'z' || 'A' <= c <= 'Z' || '0' <= c <= '9'
    || c in {'-', '_', '.', '~', '$', '&', '+', ':', '=', '@'}
  }

  function HexDigit(n: int): char requires 0 <= n < 16 {
    if n < 10 then '0' + n as char else 'A' + (n - 10) as char
  }

  function HexValue(c: char): Option<int> {
    if '0' <= c <= '9' then Some((c - '0') as int)
    else if 'a' <= c <= 'f' then Some((c - 'a') as int + 10)
    else if 'A' <= c <= 'F' then Some((c - 'A') as int + 10)
    else None
  }

  function EscapeByte(c: char): string requires IsByte(c) {
    if Plain(c) then [c] else ['%', HexDigit(c as int / 16), HexDigit(c as int % 16)]
  }

  function Escape(s: string): string requires IsText(s) {
    if s == "" then "" else EscapeByte(s[0]) + Escape(s[1..])
  }

  function Unescape(s: string): Option<string>
    decreases |s|
  {
    if s == "" then Some("")
    else if s[0] != '%' then
      var rest := Unescape(s[1..]);
      if rest.None? then None else Some([s[0]] + rest.value)
    else if |s| < 3 || HexValue(s[1]).None? || HexValue(s[2]).None? then None
    else
      var rest := Unescape(s[3..]);
      if rest.None? then None else Some([(HexValue(s[1]).value * 16 + HexValue(s[2]).value) as char] + rest.value)
  }

  lemma HexRoundTrip(n: int)
    requires 0 <= n < 16
    ensures HexValue(HexDigit(n)) == Some(n)
  {
  }

  /** Unescaping gives back the argument. */
  lemma {:induction false} UnescapeEscape(s: string)
    requires IsText(s)
    ensures Unescape(Escape(s)) == Some(s)
    decreases |s|
  {
    if s != "" {
      UnescapeEscape(s[1..]);
      var c, e, rest := s[0], EscapeByte(s[0]), Escape(s[1..]);
      assert s == [c] + s[1..];
      if Plain(c) {
        assert (e + rest)[1..] == rest;
      } else {
        HexRoundTrip(c as int / 16);
        HexRoundTrip(c as int % 16);
        assert (e + rest)[3..] == rest;
      }
    }
  }

  /** An escaped value has no character that means something in a path template. */
  lemma {:induction false} EscapeIsClean(s: string)
    requires IsText(s)
    ensures '{' !in Escape(s) && '}' !in Escape(s) && '/' !in Escape(s) && '?' !in Escape(s)
    ensures s != "" ==> Escape(s) != ""
    decreases |s|
  {
    if s != "" {
      EscapeIsClean(s[1..]);
    }
  }
}

/** Filling the placeholders of a tool's path. */
module PathTemplate {
  import opened Common
  import opened PathEscape

  // ---- The substitution the handler performs ----

  function ReplaceAll(s: string, pattern: string, value: string): string
    requires pattern != ""
    decreases |s|
  {
    if |s| < |pattern| then s
    else if pattern <= s then value + ReplaceAll(s[|pattern|..], pattern, value)
    else [s[0]] + ReplaceAll(s[1..], pattern, value)
  }

  datatype Binding = Binding(name: string, value: string)

  /** One replacement after another, in parameter order. */
  function Expand(path: string, bindings: seq<Binding>): string
    decreases |bindings|
  {
    if bindings == [] then path
    else Expand(ReplaceAll(path, "{" + bindings[0].name + "}", bindings[0].value), bindings[1..])
  }

  // ---- What it should mean ----

  predicate BraceFree(s: string) { '{' !in s && '}' !in s }

  /** The length of the brace-free text that `s` begins with. */
  function RunLength(s: string): nat
    ensures RunLength(s) <= |s| && BraceFree(s[..RunLength(s)])
    ensures RunLength(s) < |s| ==> s[RunLength(s)] == '{' || s[RunLength(s)] == '}'
  {
    if s == "" || s[0] == '{' || s[0] == '}' then 0
    else
      assert s[..1 + RunLength(s[1..])] == [s[0]] + s[1..][..RunLength(s[1..])];
      1 + RunLength(s[1..])
  }

  /** `s` begins with brace-free text and a closing brace. */
  predicate TextThenClose(s: string) {
    RunLength(s) < |s| && s[RunLength(s)] == '}'
  }

  /** `s` begins with a placeholder: an opening brace, brace-free text and a closing brace. */
  predicate Opens(s: string) {
    s != "" && s[0] == '{' && TextThenClose(s[1..])
  }

  function NameAt(s: string): string requires Opens(s) { s[1..][..RunLength(s[1..])] }
  function Past(s: string): string requires Opens(s) { s[RunLength(s[1..]) + 2..] }

  /** All placeholders filled at once; the values put in are not looked at again. */
  function Simultaneous(s: string, env: map<string, string>): string
    decreases |s|
  {
    if s == "" then ""
    else if Opens(s) && NameAt(s) in env then env[NameAt(s)] + Simultaneous(Past(s), env)
    else [s[0]] + Simultaneous(s[1..], env)
  }

  /** `s` begins with brace-free text and complete placeholders, and then a closing brace comes;
      `some` tells whether a placeholder has been passed already, and one has to be. */
  predicate Closes(s: string, some: bool)
    decreases |s|
  {
    if s == "" then false
    else if s[0] == '}' then some
    else if s[0] == '{' then Opens(s) && Closes(Past(s), true)
    else Closes(s[1..], some)
  }

  /** `s` begins with a brace pair that has nothing but text and at least one complete placeholder
      in it, so that filling the placeholders in it makes a placeholder of the pair itself. */
  predicate Captures(s: string) {
    s != "" && s[0] == '{' && Closes(s[1..], false)
  }

  predicate CaptureFree(s: string) {
    s == "" || (!Captures(s) && CaptureFree(s[1..]))
  }

  function Env(bindings: seq<Binding>): map<string, string>
    decreases |bindings|
  {
    if bindings == [] then map[] else Env(bindings[1..])[bindings[0].name := bindings[0].value]
  }

  predicate Clean(bindings: seq<Binding>) {
    forall i :: 0 <= i < |bindings| ==> BraceFree(bindings[i].name) && BraceFree(bindings[i].value)
  }

  // ---- One replacement is a simultaneous substitution of one name ----

  lemma {:induction false} RunOf(text: string, rest: string)
    requires BraceFree(text) && (rest == "" || rest[0] == '{' || rest[0] == '}')
    ensures RunLength(text + rest) == |text|
    decreases |text|
  {
    if text == "" {
      assert text + rest == rest;
    } else {
      assert (text + rest)[1..] == text[1..] + rest;
      RunOf(text[1..], rest);
    }
  }

  lemma PatternOpens(s: string, name: string)
    requires BraceFree(name)
    ensures "{" + name + "}" <= s <==> Opens(s) && NameAt(s) == name
    ensures Opens(s) ==> s == "{" + NameAt(s) + "}" + Past(s) && BraceFree(NameAt(s))
  {
    var pattern := "{" + name + "}";
    if pattern <= s {
      var rest := s[|pattern|..];
      assert s == pattern + rest;
      assert s[1..] == name + ("}" + rest);
      RunOf(name, "}" + rest);
    }
    if Opens(s) {
      var n := RunLength(s[1..]);
      assert s[1..][..n] == s[1..n + 1];
      assert s == [s[0]] + s[1..n + 1] + [s[n + 1]] + s[n + 2..];
    }
  }

  lemma {:induction false} ReplaceIsSimultaneous(s: string, name: string, value: string)
    requires BraceFree(name)
    ensures ReplaceAll(s, "{" + name + "}", value) == Simultaneous(s, map[name := value])
    decreases |s|
  {
    var pattern := "{" + name + "}";
    PatternOpens(s, name);
    if |s| < |pattern| {
      TooShort(s, name, value);
    } else if pattern <= s {
      ReplaceIsSimultaneous(s[|pattern|..], name, value);
      assert s[|pattern|..] == Past(s);
    } else {
      ReplaceIsSimultaneous(s[1..], name, value);
    }
  }

  lemma {:induction false} TooShort(s: string, name: string, value: string)
    requires BraceFree(name) && |s| < |name| + 2
    ensures Simultaneous(s, map[name := value]) == s
    decreases |s|
  {
    PatternOpens(s, name);
    if s != "" {
      TooShort(s[1..], name, value);
    }
  }

  // ---- Substitutions compose when nothing is captured ----

  lemma {:induction false} SkipText(text: string, rest: string, env: map<string, string>)
    requires '{' !in text
    ensures Simultaneous(text + rest, env) == text + Simultaneous(rest, env)
    ensures CaptureFree(text + rest) == CaptureFree(rest)
    decreases |text|
  {
    if text == "" {
      assert text + rest == rest;
    } else {
      assert (text + rest)[1..] == text[1..] + rest;
      assert !Opens(text + rest);
      SkipText(text[1..], rest, env);
    }
  }

  lemma {:induction false} SkipToClose(text: string, rest: string, some: bool)
    requires BraceFree(text)
    ensures TextThenClose(text + rest) == TextThenClose(rest)
    ensures Closes(text + rest, some) == Closes(rest, some)
    decreases |text|
  {
    if text == "" {
      assert text + rest == rest;
    } else {
      var s := text + rest;
      assert s[1..] == text[1..] + rest;
      SkipToClose(text[1..], rest, some);
      assert RunLength(s) == 1 + RunLength(s[1..]);
    }
  }

  /** Text and a closing brace is the case without a placeholder. */
  lemma {:induction false} ClosesWithout(s: string)
    requires TextThenClose(s)
    ensures Closes(s, true) && !Closes(s, false)
    decreases |s|
  {
    if s[0] != '}' {
      assert RunLength(s) == 1 + RunLength(s[1..]);
      ClosesWithout(s[1..]);
    }
  }

  lemma {:induction false} ClosesWithSome(s: string)
    requires Closes(s, false)
    ensures Closes(s, true) && !TextThenClose(s)
    decreases |s|
  {
    if s[0] != '{' {
      assert RunLength(s) == 1 + RunLength(s[1..]);
      ClosesWithSome(s[1..]);
    }
  }

  lemma PlaceholderOpens(name: string, rest: string)
    requires BraceFree(name)
    ensures var s := "{" + name + "}" + rest; Opens(s) && NameAt(s) == name && Past(s) == rest
  {
    var s := "{" + name + "}" + rest;
    assert s[1..] == name + ("}" + rest);
    RunOf(name, "}" + rest);
    assert s[|name| + 2..] == rest;
  }

  lemma Bracketed(name: string, rest: string)
    ensures "{" + name + "}" + rest == ['{'] + ((name + "}") + rest)
  {
  }

  /** A placeholder that is not filled stays as it is. */
  lemma SkipPlaceholder(name: string, rest: string, env: map<string, string>)
    requires BraceFree(name) && name !in env
    ensures Simultaneous("{" + name + "}" + rest, env) == "{" + name + "}" + Simultaneous(rest, env)
  {
    var s, tail := "{" + name + "}" + rest, name + "}";
    PlaceholderOpens(name, rest);
    Bracketed(name, rest);
    Bracketed(name, Simultaneous(rest, env));
    assert s[1..] == tail + rest;
    SkipText(tail, rest, env);
    assert Simultaneous(s, env) == ['{'] + Simultaneous(tail + rest, env);
  }

  /** What a closing brace ends after filling in, it ended before: text and placeholders. */
  lemma {:induction false} FilledCloses(s: string, name: string, value: string)
    requires BraceFree(value)
    requires TextThenClose(Simultaneous(s, map[name := value]))
    ensures TextThenClose(s) || Closes(s, false)
    ensures Closes(s, true)
    decreases |s|
  {
    var one := map[name := value];
    var filled := Simultaneous(s, one);
    if s[0] == '}' {
    } else if Opens(s) && NameAt(s) == name {
      SkipToClose(value, Simultaneous(Past(s), one), true);
      FilledCloses(Past(s), name, value);
    } else {
      assert filled[0] == s[0] != '{';
      assert filled[1..] == Simultaneous(s[1..], one);
      assert RunLength(filled) == 1 + RunLength(filled[1..]);
      assert RunLength(s) == 1 + RunLength(s[1..]);
      FilledCloses(s[1..], name, value);
    }
  }

  /** An opening brace that begins no placeholder begins none after filling in. */
  lemma StaysUnopened(s: string, name: string, value: string)
    requires s != "" && s[0] == '{' && !Opens(s) && !Captures(s) && BraceFree(value)
    ensures !Opens("{" + Simultaneous(s[1..], map[name := value]))
  {
    var filled := Simultaneous(s[1..], map[name := value]);
    assert ("{" + filled)[1..] == filled;
    if TextThenClose(filled) {
      FilledCloses(s[1..], name, value);
    }
  }

  /** Filling in does not make a brace pair that was not there. */
  lemma {:induction false} ClosedBefore(s: string, name: string, value: string, some: bool)
    requires CaptureFree(s) && BraceFree(value)
    requires Closes(Simultaneous(s, map[name := value]), some)
    ensures Closes(s, some)
    decreases |s|
  {
    var one := map[name := value];
    var filled := Simultaneous(s, one);
    if s[0] == '{' && Opens(s) {
      var x, rest := NameAt(s), Past(s);
      PatternOpens(s, x);
      PastIsCaptureFree(s);
      if x == name {
        SkipToClose(value, Simultaneous(rest, one), some);
        ClosedBefore(rest, name, value, some);
        if !some { ClosesWithSome(rest); }
      } else {
        SkipPlaceholder(x, rest, one);
        PlaceholderOpens(x, Simultaneous(rest, one));
        ClosedBefore(rest, name, value, true);
      }
    } else {
      assert filled == [s[0]] + Simultaneous(s[1..], one);
      if s[0] == '{' {
        StaysUnopened(s, name, value);
      } else if s[0] != '}' {
        assert filled[1..] == Simultaneous(s[1..], one);
        ClosedBefore(s[1..], name, value, some);
      }
    }
  }

  lemma PastIsCaptureFree(s: string)
    requires Opens(s)
    ensures CaptureFree(s) == CaptureFree(Past(s))
  {
    var x, rest := NameAt(s), Past(s);
    PatternOpens(s, x);
    ClosesWithout(s[1..]);
    assert s[1..] == (x + "}") + rest;
    SkipText(x + "}", rest, map[]);
  }

  lemma {:induction false} FilledIsCaptureFree(s: string, name: string, value: string)
    requires CaptureFree(s) && BraceFree(name) && BraceFree(value)
    ensures CaptureFree(Simultaneous(s, map[name := value]))
    decreases |s|
  {
    var one := map[name := value];
    if s == "" {
    } else if Opens(s) {
      var x, filled := NameAt(s), Simultaneous(Past(s), one);
      PatternOpens(s, x);
      PastIsCaptureFree(s);
      FilledIsCaptureFree(Past(s), name, value);
      if x == name {
        SkipText(value, filled, one);
      } else {
        SkipPlaceholder(x, Past(s), one);
        PlaceholderOpens(x, filled);
        PastIsCaptureFree("{" + x + "}" + filled);
      }
    } else {
      var filled := Simultaneous(s[1..], one);
      FilledIsCaptureFree(s[1..], name, value);
      assert ([s[0]] + filled)[1..] == filled;
      if s[0] == '{' && Closes(filled, false) {
        ClosedBefore(s[1..], name, value, false);
      }
    }
  }

  lemma {:induction false} Compose(s: string, name: string, value: string, env: map<string, string>)
    requires CaptureFree(s) && BraceFree(name) && BraceFree(value)
    ensures Simultaneous(Simultaneous(s, map[name := value]), env) == Simultaneous(s, env[name := value])
    decreases |s|
  {
    var one := map[name := value];
    if s == "" {
    } else if Opens(s) {
      var x, rest := NameAt(s), Past(s);
      PatternOpens(s, x);
      PastIsCaptureFree(s);
      Compose(rest, name, value, env);
      var filled := Simultaneous(rest, one);
      if x == name {
        SkipText(value, filled, env);
      } else {
        SkipPlaceholder(x, rest, one);
        PlaceholderOpens(x, filled);
        if x in env {
          assert Simultaneous("{" + x + "}" + filled, env) == env[x] + Simultaneous(filled, env);
        } else {
          SkipPlaceholder(x, filled, env);
          SkipPlaceholder(x, rest, env[name := value]);
        }
      }
    } else {
      var filled := Simultaneous(s[1..], one);
      Compose(s[1..], name, value, env);
      if s[0] == '{' {
        StaysUnopened(s, name, value);
      }
      assert ([s[0]] + filled)[1..] == filled;
      assert !Opens([s[0]] + filled);
    }
  }

  /** When nothing is captured, with brace-free names and values, replacing one parameter after
      another fills all placeholders at once; of two parameters with one name the first counts. */
  lemma {:induction false} ExpandIsSimultaneous(s: string, bindings: seq<Binding>)
    requires CaptureFree(s) && Clean(bindings)
    ensures Expand(s, bindings) == Simultaneous(s, Env(bindings))
    decreases |bindings|
  {
    if bindings == [] {
      EmptyEnv(s);
    } else {
      var b := bindings[0];
      ReplaceIsSimultaneous(s, b.name, b.value);
      Compose(s, b.name, b.value, Env(bindings[1..]));
      FilledIsCaptureFree(s, b.name, b.value);
      ExpandIsSimultaneous(Simultaneous(s, map[b.name := b.value]), bindings[1..]);
    }
  }

  lemma {:induction false} EmptyEnv(s: string)
    ensures Simultaneous(s, map[]) == s
    decreases |s|
  {
    if s != "" {
      EmptyEnv(s[1..]);
    }
  }

  // ---- The order of distinctly named parameters does not matter ----

  predicate DistinctNames(bindings: seq<Binding>) {
    forall i, j :: 0 <= i < j < |bindings| ==> bindings[i].name != bindings[j].name
  }

  lemma {:induction false} EnvHolds(bindings: seq<Binding>)
    requires DistinctNames(bindings)
    ensures forall b :: b in bindings ==> b.name in Env(bindings) && Env(bindings)[b.name] == b.value
    ensures forall x :: x in Env(bindings) ==> Binding(x, Env(bindings)[x]) in bindings
    decreases |bindings|
  {
    if bindings != [] {
      var rest := bindings[1..];
      assert bindings == [bindings[0]] + rest;
      assert forall i :: 0 <= i < |rest| ==> rest[i] == bindings[i + 1];
      EnvHolds(rest);
    }
  }

  /** The same clean, distinctly named parameters, perhaps in another order. */
  ghost predicate Reordered(a: seq<Binding>, b: seq<Binding>) {
    && Clean(a) && Clean(b) && DistinctNames(a) && DistinctNames(b)
    && forall x :: x in a <==> x in b
  }

  lemma OrderDoesNotMatter(s: string, a: seq<Binding>, b: seq<Binding>)
    requires CaptureFree(s) && Reordered(a, b)
    ensures Expand(s, a) == Expand(s, b)
  {
    EnvHolds(a);
    EnvHolds(b);
    assert Env(a) == Env(b);
    ExpandIsSimultaneous(s, a);
    ExpandIsSimultaneous(s, b);
  }

  // ---- Slashes ----

  function Count(s: string, c: char): nat {
    if s == "" then 0 else (if s[0] == c then 1 else 0) + Count(s[1..], c)
  }

  lemma {:induction false} CountAppend(a: string, b: string, c: char)
    ensures Count(a + b, c) == Count(a, c) + Count(b, c)
    decreases |a|
  {
    if a == "" {
      assert a + b == b;
    } else {
      assert (a + b)[1..] == a[1..] + b;
      CountAppend(a[1..], b, c);
    }
  }

  lemma {:induction false} CountAbsent(s: string, c: char)
    requires c !in s
    ensures Count(s, c) == 0
    decreases |s|
  {
    if s != "" {
      CountAbsent(s[1..], c);
    }
  }

  lemma {:induction false} ReplacingKeepsSlashes(s: string, pattern: string, value: string)
    requires pattern != "" && '/' !in pattern && '/' !in value
    ensures Count(ReplaceAll(s, pattern, value), '/') == Count(s, '/')
    decreases |s|
  {
    if |s| < |pattern| {
    } else if pattern <= s {
      var rest := s[|pattern|..];
      assert s == pattern + rest;
      ReplacingKeepsSlashes(rest, pattern, value);
      CountAppend(value, ReplaceAll(rest, pattern, value), '/');
      CountAppend(pattern, rest, '/');
      CountAbsent(value, '/');
      CountAbsent(pattern, '/');
    } else {
      ReplacingKeepsSlashes(s[1..], pattern, value);
      CountAppend([s[0]], ReplaceAll(s[1..], pattern, value), '/');
    }
  }

  /** Slash-free names and values keep the number of slashes, however the braces are nested. */
  lemma {:induction false} SlashesAreKept(s: string, bindings: seq<Binding>)
    requires forall i :: 0 <= i < |bindings| ==> '/' !in bindings[i].name && '/' !in bindings[i].value
    ensures Count(Expand(s, bindings), '/') == Count(s, '/')
    decreases |bindings|
  {
    if bindings != [] {
      var b := bindings[0];
      var pattern := "{" + b.name + "}";
      ReplacingKeepsSlashes(s, pattern, b.value);
      SlashesAreKept(ReplaceAll(s, pattern, b.value), bindings[1..]);
    }
  }

  // ---- The handler's loop ----

  /** A parameter with its resolved value printed as text; `None` when there is no value. */
  datatype Param = Param(name: string, isPath: bool, required: bool, value: Option<string>)

  datatype Result = Ok(path: string) | MissingParameter(name: string)

  predicate Absent(p: Param) { p.value.None? || p.value.value == "" }

  /** The parameter is put into the path. */
  predicate Fills(p: Param) { p.isPath && !Absent(p) }

  predicate Texts(params: seq<Param>) {
    forall i :: 0 <= i < |params| && params[i].value.Some? ==> IsText(params[i].value.value)
  }

  /** The replacements that the path parameters call for. */
  function Bindings(params: seq<Param>): seq<Binding>
    requires Texts(params)
    decreases |params|
  {
    if params == [] then []
    else
      var p, n := params[|params| - 1], |params| - 1;
      Bindings(params[..n]) + if Fills(p) then [Binding(p.name, Escape(p.value.value))] else []
  }

  lemma {:induction false} ExpandLast(s: string, bindings: seq<Binding>, b: Binding)
    ensures Expand(s, bindings + [b]) == ReplaceAll(Expand(s, bindings), "{" + b.name + "}", b.value)
    decreases |bindings|
  {
    if bindings == [] {
      assert bindings + [b] == [b];
      assert [b][1..] == [];
    } else {
      assert (bindings + [b])[1..] == bindings[1..] + [b];
      ExpandLast(ReplaceAll(s, "{" + bindings[0].name + "}", bindings[0].value), bindings[1..], b);
    }
  }

  predicate BraceFreeNames(params: seq<Param>) {
    forall i :: 0 <= i < |params| && Fills(params[i]) ==> BraceFree(params[i].name)
  }

  /** The binding that a path parameter with a value gives rise to. */
  predicate Binds(p: Param, b: Binding)
    requires p.value.Some? ==> IsText(p.value.value)
  {
    Fills(p) && b == Binding(p.name, Escape(p.value.value))
  }

  lemma {:induction false} BindingsAreClean(params: seq<Param>)
    requires Texts(params) && BraceFreeNames(params)
    ensures Clean(Bindings(params))
    decreases |params|
  {
    if params != [] {
      var n := |params| - 1;
      BindingsAreClean(params[..n]);
      if Fills(params[n]) {
        EscapeIsClean(params[n].value.value);
      }
    }
  }

  lemma {:induction false} BindingsComeFrom(params: seq<Param>, b: Binding) returns (i: nat)
    requires Texts(params) && b in Bindings(params)
    ensures i < |params| && Binds(params[i], b)
    decreases |params|
  {
    var n := |params| - 1;
    if b in Bindings(params[..n]) {
      i := BindingsComeFrom(params[..n], b);
    } else {
      i := n;
    }
  }

  /** What one more parameter does to the path. */
  lemma NextParam(template: string, params: seq<Param>, i: nat)
    requires Texts(params) && i < |params|
    ensures
      var before, p := Expand(template, Bindings(params[..i])), params[i];
      Expand(template, Bindings(params[..i + 1])) ==
      if Fills(p) then ReplaceAll(before, "{" + p.name + "}", Escape(p.value.value)) else before
  {
    var p, bs := params[i], Bindings(params[..i]);
    assert params[..i + 1][..i] == params[..i];
    if Fills(p) {
      ExpandLast(template, bs, Binding(p.name, Escape(p.value.value)));
    } else {
      assert bs + [] == bs;
    }
  }

  /** The path once the first `i` parameters have been dealt with. */
  function PathAfter(template: string, params: seq<Param>, i: nat): string
    requires Texts(params) && i <= |params|
  {
    if i == 0 then template
    else
      var before, p := PathAfter(template, params, i - 1), params[i - 1];
      if Fills(p) then ReplaceAll(before, "{" + p.name + "}", Escape(p.value.value)) else before
  }

  lemma {:induction false} PathAfterIsExpand(template: string, params: seq<Param>, i: nat)
    requires Texts(params) && i <= |params|
    ensures PathAfter(template, params, i) == Expand(template, Bindings(params[..i]))
  {
    if i > 0 {
      PathAfterIsExpand(template, params, i - 1);
      NextParam(template, params, i - 1);
    }
  }

  /** A required path parameter has a value. */
  predicate Supplied(p: Param) { p.isPath && p.required ==> !Absent(p) }

  /** The path part of a tool call: the first required path parameter without a value is reported;
      otherwise the path is the template with all its placeholders filled at once. */
  method ExpandPath(template: string, params: seq<Param>) returns (r: Result)
    requires Texts(params)
    ensures r.Ok? <==> forall i :: 0 <= i < |params| ==> Supplied(params[i])
    ensures r.MissingParameter? ==>
              exists i :: 0 <= i < |params| && !Supplied(params[i]) && params[i].name == r.name
                && forall j :: 0 <= j < i ==> Supplied(params[j])
    ensures r.Ok? ==> r.path == Expand(template, Bindings(params))
    ensures r.Ok? && CaptureFree(template) && BraceFreeNames(params) ==>
              r.path == Simultaneous(template, Env(Bindings(params)))
  {
    var path := template;
    for i := 0 to |params|
      invariant path == PathAfter(template, params, i)
      invariant forall j :: 0 <= j < i ==> Supplied(params[j])
    {
      var p := params[i];
      if p.isPath {
        if p.value.None? || p.value.value == "" {
          if p.required {
            return MissingParameter(p.name);
          }
          continue;
        }
        path := ReplaceAll(path, "{" + p.name + "}", Escape(p.value.value));
      }
    }
    assert params[..|params|] == params;
    PathAfterIsExpand(template, params, |params|);
    FilledAtOnce(template, params);
    return Ok(path);
  }

  lemma FilledAtOnce(template: string, params: seq<Param>)
    requires Texts(params)
    ensures CaptureFree(template) && BraceFreeNames(params) ==>
              Expand(template, Bindings(params)) == Simultaneous(template, Env(Bindings(params)))
  {
    if CaptureFree(template) && BraceFreeNames(params) {
      BindingsAreClean(params);
      ExpandIsSimultaneous(template, Bindings(params));
    }
  }

  /** A filled path has the template's slashes when the names put in have none, and each value put
      in unescapes to its argument. */
  lemma FilledPathIsFaithful(template: string, params: seq<Param>)
    requires Texts(params)
    ensures (forall i :: 0 <= i < |params| && Fills(params[i]) ==> '/' !in params[i].name) ==>
              Count(Expand(template, Bindings(params)), '/') == Count(template, '/')
    ensures forall x :: x in Env(Bindings(params)) ==>
              exists i :: 0 <= i < |params| && Fills(params[i]) && params[i].name == x
                && Unescape(Env(Bindings(params))[x]) == params[i].value
  {
    var bs := Bindings(params);
    if forall i :: 0 <= i < |params| && Fills(params[i]) ==> '/' !in params[i].name {
      forall i | 0 <= i < |bs|
        ensures '/' !in bs[i].name && '/' !in bs[i].value
      {
        var j := BindingsComeFrom(params, bs[i]);
        EscapeIsClean(params[j].value.value);
      }
      SlashesAreKept(template, bs);
    }
    forall x | x in Env(bs)
      ensures exists i :: 0 <= i < |params| && Fills(params[i]) && params[i].name == x
                && Unescape(Env(bs)[x]) == params[i].value
    {
      EnvFrom(bs, x);
      var i := BindingsComeFrom(params, Binding(x, Env(bs)[x]));
      UnescapeEscape(params[i].value.value);
    }
  }

  lemma {:induction false} EnvFrom(bindings: seq<Binding>, x: string)
    requires x in Env(bindings)
    ensures Binding(x, Env(bindings)[x]) in bindings
    decreases |bindings|
  {
    if bindings[0].name != x {
      EnvFrom(bindings[1..], x);
    }
  }
}
