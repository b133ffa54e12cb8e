/** What goes wrong in the templates that capture: filling the placeholders in a brace pair makes a
    placeholder that the template does not have, and a later parameter fills it. */
module TemplateCapture {
  import opened PathTemplate

  /** The opening braces that filling with `env` leaves. */
  function Left(s: string, env: map<string, string>): nat { Count(Simultaneous(s, env), '{') }

  lemma LeftAtText(text: string, rest: string, env: map<string, string>)
    requires '{' !in text
    ensures Left(text + rest, env) == Left(rest, env)
  {
    SkipText(text, rest, env);
    CountAppend(text, Simultaneous(rest, env), '{');
    CountAbsent(text, '{');
  }

  lemma LeftAtBrace(s: string, env: map<string, string>)
    requires s != "" && s[0] == '{' && !(Opens(s) && NameAt(s) in env)
    ensures Left(s, env) == 1 + Left(s[1..], env)
  {
    CountAppend("{", Simultaneous(s[1..], env), '{');
  }

  /** A placeholder costs one brace exactly when it is not filled. */
  lemma LeftAtPlaceholder(s: string, env: map<string, string>)
    requires Opens(s)
    requires forall x :: x in env ==> BraceFree(env[x])
    ensures Left(s, env) == Left(Past(s), env) + if NameAt(s) in env then 0 else 1
    ensures Left(s[1..], env) == Left(Past(s), env)
  {
    var x, rest := NameAt(s), Past(s);
    PatternOpens(s, x);
    assert s[1..] == (x + "}") + rest;
    LeftAtText(x + "}", rest, env);
    if x in env {
      CountAppend(env[x], Simultaneous(rest, env), '{');
      CountAbsent(env[x], '{');
    } else {
      LeftAtBrace(s, env);
    }
  }

  /** Somewhere in `s` an opening brace begins no placeholder, and filling one name makes it begin
      one that `env` fills. */
  predicate Taken(s: string, one: map<string, string>, env: map<string, string>) {
    s != "" && (TakenHere(s, one, env) || Taken(s[1..], one, env))
  }

  predicate TakenHere(s: string, one: map<string, string>, env: map<string, string>)
    requires s != ""
  {
    var filled := "{" + Simultaneous(s[1..], one);
    s[0] == '{' && !Opens(s) && Opens(filled) && NameAt(filled) in env
  }

  lemma {:induction false} TakenAfterText(text: string, rest: string, one: map<string, string>,
                                          env: map<string, string>)
    requires '{' !in text
    ensures Taken(text + rest, one, env) == Taken(rest, one, env)
    decreases |text|
  {
    if text == "" {
      assert text + rest == rest;
    } else {
      assert (text + rest)[1..] == text[1..] + rest;
      TakenAfterText(text[1..], rest, one, env);
    }
  }

  lemma TakenAfterPlaceholder(s: string, one: map<string, string>, env: map<string, string>)
    requires Opens(s)
    ensures Taken(s, one, env) == Taken(Past(s), one, env)
  {
    PatternOpens(s, NameAt(s));
    assert s[1..] == (NameAt(s) + "}") + Past(s);
    TakenAfterText(NameAt(s) + "}", Past(s), one, env);
  }

  /** Filling one name and then the others leaves no more braces than filling all at once, and
      fewer when a placeholder was made on the way. */
  lemma {:induction false} TwoStagesLeaveFewer(s: string, name: string, value: string, env: map<string, string>)
    requires BraceFree(name) && BraceFree(value)
    requires forall x :: x in env ==> BraceFree(env[x])
    ensures Left(Simultaneous(s, map[name := value]), env) <= Left(s, env[name := value])
    ensures Taken(s, map[name := value], env) ==>
              Left(Simultaneous(s, map[name := value]), env) < Left(s, env[name := value])
    decreases |s|
  {
    var one, all := map[name := value], env[name := value];
    if s == "" {
    } else if Opens(s) {
      var x, filled := NameAt(s), Simultaneous(Past(s), one);
      PatternOpens(s, x);
      TwoStagesLeaveFewer(Past(s), name, value, env);
      TakenAfterPlaceholder(s, one, env);
      LeftAtPlaceholder(s, all);
      if x == name {
        LeftAtText(value, filled, env);
      } else {
        SkipPlaceholder(x, Past(s), one);
        PlaceholderOpens(x, filled);
        LeftAtPlaceholder("{" + x + "}" + filled, env);
      }
    } else {
      var filled := Simultaneous(s[1..], one);
      TwoStagesLeaveFewer(s[1..], name, value, env);
      assert ([s[0]] + filled)[1..] == filled;
      if s[0] != '{' {
        LeftAtText([s[0]], filled, env);
        LeftAtText([s[0]], s[1..], all);
        assert [s[0]] + s[1..] == s;
      } else {
        LeftAtBrace(s, all);
        if TakenHere(s, one, env) {
          LeftAtPlaceholder("{" + filled, env);
        } else {
          LeftAtBrace("{" + filled, env);
        }
      }
    }
  }

  /** After one name is filled, either the brace pair has become a placeholder or it still has
      some in it. */
  lemma {:induction false} ClosesAfter(s: string, name: string, value: string)
    requires Closes(s, true) && BraceFree(name) && BraceFree(value)
    ensures var filled := Simultaneous(s, map[name := value]); TextThenClose(filled) || Closes(filled, false)
    decreases |s|
  {
    var one := map[name := value];
    var filled := Simultaneous(s, one);
    if s[0] == '{' {
      var x, rest := NameAt(s), Past(s);
      PatternOpens(s, x);
      ClosesAfter(rest, name, value);
      var after := Simultaneous(rest, one);
      if x == name {
        SkipToClose(value, after, false);
      } else {
        SkipPlaceholder(x, rest, one);
        PlaceholderOpens(x, after);
        if TextThenClose(after) { ClosesWithout(after); } else { ClosesWithSome(after); }
      }
    } else {
      assert filled[1..] == Simultaneous(s[1..], one);
      if s[0] != '}' {
        ClosesAfter(s[1..], name, value);
        SkipToClose([s[0]], filled[1..], false);
        assert filled == [s[0]] + filled[1..];
      }
    }
  }

  /** The first placeholder in a brace pair. */
  function FirstName(s: string): string
    requires Closes(s, false)
    decreases |s|
  {
    if s[0] == '{' then NameAt(s) else FirstName(s[1..])
  }

  // ---- The names of a template's placeholders ----

  predicate HasName(s: string, name: string) {
    s != "" && ((Opens(s) && NameAt(s) == name) || HasName(s[1..], name))
  }

  lemma {:induction false} NameFits(s: string, name: string)
    requires HasName(s, name)
    ensures |name| + 2 <= |s| && BraceFree(name)
    decreases |s|
  {
    if !(Opens(s) && NameAt(s) == name) {
      NameFits(s[1..], name);
    }
  }

  lemma {:induction false} NameAfterText(text: string, rest: string, name: string)
    requires '{' !in text
    ensures HasName(text + rest, name) == HasName(rest, name)
    decreases |text|
  {
    if text == "" {
      assert text + rest == rest;
    } else {
      assert (text + rest)[1..] == text[1..] + rest;
      NameAfterText(text[1..], rest, name);
    }
  }

  lemma NameAfterPlaceholder(s: string, name: string)
    requires Opens(s)
    ensures HasName(s[1..], name) == HasName(Past(s), name)
  {
    PatternOpens(s, NameAt(s));
    assert s[1..] == (NameAt(s) + "}") + Past(s);
    NameAfterText(NameAt(s) + "}", Past(s), name);
  }

  lemma {:induction false} Untouched(s: string, name: string, value: string)
    requires !HasName(s, name)
    ensures Simultaneous(s, map[name := value]) == s
    decreases |s|
  {
    if s != "" {
      Untouched(s[1..], name, value);
    }
  }

  /** Filling a name that is there leaves fewer braces, and the value is put in. */
  lemma {:induction false} FillingShows(s: string, name: string, value: string)
    requires HasName(s, name) && BraceFree(value)
    ensures Left(s, map[name := value]) < Count(s, '{')
    ensures |Simultaneous(s, map[name := value])| >= |value|
    decreases |s|
  {
    var one := map[name := value];
    if Opens(s) {
      LeftAtPlaceholder(s, one);
      NameAfterPlaceholder(s, name);
      if NameAt(s) == name {
        LeftAtMost(s[1..], one);
      } else {
        FillingShows(s[1..], name, value);
      }
    } else {
      FillingShows(s[1..], name, value);
      CountAppend([s[0]], Simultaneous(s[1..], one), '{');
    }
  }

  /** The other placeholders stay. */
  lemma {:induction false} OthersStay(s: string, name: string, value: string, x: string)
    requires BraceFree(value) && HasName(s, x) && x != name
    ensures HasName(Simultaneous(s, map[name := value]), x)
    decreases |s|
  {
    var one := map[name := value];
    if Opens(s) {
      var y, filled := NameAt(s), Simultaneous(Past(s), one);
      PatternOpens(s, y);
      NameAfterPlaceholder(s, x);
      if y == name {
        OthersStay(Past(s), name, value, x);
        NameAfterText(value, filled, x);
      } else {
        SkipPlaceholder(y, Past(s), one);
        PlaceholderOpens(y, filled);
        NameAfterPlaceholder("{" + y + "}" + filled, x);
        if y != x {
          OthersStay(Past(s), name, value, x);
        }
      }
    } else {
      OthersStay(s[1..], name, value, x);
      assert Simultaneous(s, one)[1..] == Simultaneous(s[1..], one);
    }
  }

  lemma {:induction false} RunAtLeast(text: string, rest: string)
    requires BraceFree(text)
    ensures RunLength(text + rest) >= |text|
    decreases |text|
  {
    if text != "" {
      assert (text + rest)[1..] == text[1..] + rest;
      RunAtLeast(text[1..], rest);
    }
  }

  /** Text that ends at a closing brace only after filling in has the value in it. */
  lemma {:induction false} NewTextIsLong(s: string, name: string, value: string)
    requires BraceFree(value) && !TextThenClose(s) && TextThenClose(Simultaneous(s, map[name := value]))
    ensures RunLength(Simultaneous(s, map[name := value])) >= |value|
    decreases |s|
  {
    var one := map[name := value];
    var filled := Simultaneous(s, one);
    if Opens(s) && NameAt(s) == name {
      RunAtLeast(value, Simultaneous(Past(s), one));
    } else {
      assert filled[0] == s[0] && filled[1..] == Simultaneous(s[1..], one);
      assert RunLength(filled) == 1 + RunLength(filled[1..]);
      assert RunLength(s) == 1 + RunLength(s[1..]);
      NewTextIsLong(s[1..], name, value);
    }
  }

  /** Every placeholder after filling in was there before, under another name than the filled one,
      or has a name as long as the value. */
  lemma {:induction false} NewNamesAreLong(s: string, name: string, value: string, x: string)
    requires BraceFree(value) && HasName(Simultaneous(s, map[name := value]), x)
    ensures (HasName(s, x) && x != name) || |x| >= |value|
    decreases |s|
  {
    var one := map[name := value];
    if s == "" {
    } else if Opens(s) {
      var y, filled := NameAt(s), Simultaneous(Past(s), one);
      PatternOpens(s, y);
      NameAfterPlaceholder(s, x);
      if y == name {
        NameAfterText(value, filled, x);
        NewNamesAreLong(Past(s), name, value, x);
      } else {
        SkipPlaceholder(y, Past(s), one);
        PlaceholderOpens(y, filled);
        NameAfterPlaceholder("{" + y + "}" + filled, x);
        if x != y {
          NewNamesAreLong(Past(s), name, value, x);
        }
      }
    } else {
      var rest := Simultaneous(s[1..], one);
      var filled := [s[0]] + rest;
      assert filled[1..] == rest;
      if Opens(filled) && NameAt(filled) == x {
        NewTextIsLong(s[1..], name, value);
      } else {
        NewNamesAreLong(s[1..], name, value, x);
      }
    }
  }

  // ---- A template that captures ----

  lemma {:induction false} FirstNameIsThere(s: string)
    requires Closes(s, false)
    ensures HasName(s, FirstName(s))
    decreases |s|
  {
    if s[0] != '{' {
      FirstNameIsThere(s[1..]);
    }
  }

  /** Filling `name` makes the placeholder `next`. */
  predicate Makes(s: string, name: string, value: string, next: string) {
    && BraceFree(next) && |next| >= |value| && HasName(Simultaneous(s, map[name := value]), next)
    && Taken(s, map[name := value], map[next := value])
  }

  /** Filling the first name of a brace pair makes a placeholder of the pair or leaves it capturing. */
  lemma NextHere(s: string, value: string) returns (name: string, next: string)
    requires Captures(s) && BraceFree(value)
    ensures HasName(s, name)
    ensures Makes(s, name, value, next) || !CaptureFree(Simultaneous(s, map[name := value]))
  {
    name := FirstName(s[1..]);
    FirstNameIsThere(s[1..]);
    NameFits(s[1..], name);
    ClosesWithSome(s[1..]);
    ClosesAfter(s[1..], name, value);
    var filled := Simultaneous(s[1..], map[name := value]);
    assert ("{" + filled)[1..] == filled;
    if TextThenClose(filled) {
      next := NameAt("{" + filled);
      PatternOpens("{" + filled, next);
      NewTextIsLong(s[1..], name, value);
    } else {
      next := "";
    }
  }

  /** In a template that captures, filling a well-chosen name makes a placeholder that can be filled
      next, or leaves a template that captures. */
  lemma {:induction false} NextName(s: string, value: string) returns (name: string, next: string)
    requires !CaptureFree(s) && BraceFree(value)
    ensures HasName(s, name)
    ensures Makes(s, name, value, next) || !CaptureFree(Simultaneous(s, map[name := value]))
    decreases |s|
  {
    if Captures(s) {
      name, next := NextHere(s, value);
    } else {
      name, next := NextName(s[1..], value);
      if Opens(s) {
        MakesEarlier(s, name, value, next);
        NotCaptureFreeAfter(s, map[name := value]);
      } else {
        assert Simultaneous(s, map[name := value])[1..] == Simultaneous(s[1..], map[name := value]);
      }
    }
  }

  lemma MakesEarlier(s: string, name: string, value: string, next: string)
    requires Opens(s) && BraceFree(value)
    ensures Makes(s[1..], name, value, next) ==> Makes(s, name, value, next)
  {
    var one := map[name := value];
    var x, filled := NameAt(s), Simultaneous(Past(s), one);
    PatternOpens(s, x);
    assert s[1..] == (x + "}") + Past(s);
    SkipText(x + "}", Past(s), one);
    NameAfterText(x + "}", filled, next);
    if x == name {
      NameAfterText(value, filled, next);
    } else {
      assert Simultaneous(s, one)[1..] == Simultaneous(s[1..], one);
    }
  }

  /** A fault past a placeholder is still there once the placeholder is filled or kept. */
  lemma NotCaptureFreeAfter(s: string, one: map<string, string>)
    requires Opens(s) && forall x :: x in one ==> BraceFree(one[x])
    ensures CaptureFree(Simultaneous(s, one)) == CaptureFree(Simultaneous(s[1..], one))
  {
    var x, rest := NameAt(s), Past(s);
    var filled := Simultaneous(rest, one);
    PatternOpens(s, x);
    assert s[1..] == (x + "}") + rest;
    SkipText(x + "}", rest, one);
    SkipText(x + "}", filled, one);
    if x in one {
      SkipText(one[x], filled, one);
    } else {
      SkipPlaceholder(x, rest, one);
      PlaceholderOpens(x, filled);
      PastIsCaptureFree("{" + x + "}" + filled);
    }
  }

  lemma {:induction false} LeftAtMost(s: string, env: map<string, string>)
    requires forall x :: x in env ==> BraceFree(env[x])
    ensures Left(s, env) <= Count(s, '{')
    decreases |s|
  {
    if s == "" {
    } else if s[0] != '{' {
      LeftAtMost(s[1..], env);
      LeftAtText([s[0]], s[1..], env);
      assert [s[0]] + s[1..] == s;
    } else {
      LeftAtMost(s[1..], env);
      if Opens(s) { LeftAtPlaceholder(s, env); } else { LeftAtBrace(s, env); }
    }
  }

  // ---- The parameters that go wrong ----

  function Dashes(n: nat): (r: string)
    ensures |r| == n && BraceFree(r)
  {
    seq(n, _ => '-')
  }

  /** Parameters `bs` after which `last` is filled, although the template has no such placeholder. */
  ghost predicate Wrong(s: string, bs: seq<Binding>, last: Binding) {
    && Clean(bs + [last]) && DistinctNames(bs + [last])
    && !HasName(s, last.name)
    && Expand(s, bs + [last]) != Expand(s, bs)
    && Count(Expand(s, bs + [last]), '{') < Left(s, Env(bs + [last]))
  }

  /** None of the names is among the parameters. */
  predicate Avoids(bs: seq<Binding>, names: set<string>) {
    forall i :: 0 <= i < |bs| ==> bs[i].name !in names
  }

  /** None of the names is that of a placeholder, and all are shorter than the template. */
  predicate Gone(s: string, names: set<string>) {
    forall x :: x in names ==> !HasName(s, x) && |x| < |s|
  }

  lemma GoneLater(s: string, name: string, value: string, names: set<string>)
    requires Gone(s, names) && HasName(s, name) && BraceFree(value) && |value| > |s|
    ensures Gone(Simultaneous(s, map[name := value]), names + {name})
  {
    var filled := Simultaneous(s, map[name := value]);
    NameFits(s, name);
    FillingShows(s, name, value);
    forall x | x in names + {name} ensures !HasName(filled, x) && |x| < |filled| {
      if HasName(filled, x) {
        NewNamesAreLong(s, name, value, x);
      }
    }
  }

  /** The last step: the placeholder has been made and is filled. */
  lemma WrongAtOnce(s: string, name: string, value: string, next: string)
    requires HasName(s, name) && BraceFree(value) && |value| > |s| && Makes(s, name, value, next)
    ensures Wrong(s, [Binding(name, value)], Binding(next, value))
  {
    var b, last, filled := Binding(name, value), Binding(next, value), Simultaneous(s, map[name := value]);
    NameFits(s, name);
    if HasName(s, next) {
      NameFits(s, next);
    }
    ReplaceIsSimultaneous(s, name, value);
    ReplaceIsSimultaneous(filled, next, value);
    FillingShows(filled, next, value);
    TwoStagesLeaveFewer(s, name, value, map[next := value]);
    assert [b] + [last] == [b, last];
    OneBinding(s, b);
    TwoBindings(s, b, last);
  }

  lemma OneBinding(s: string, b: Binding)
    ensures Expand(s, [b]) == ReplaceAll(s, "{" + b.name + "}", b.value) && Env([b]) == map[b.name := b.value]
  {
    assert [b][1..] == [];
  }

  lemma TwoBindings(s: string, b: Binding, c: Binding)
    ensures Expand(s, [b, c]) == Expand(ReplaceAll(s, "{" + b.name + "}", b.value), [c])
    ensures Expand(s, [b, c]) ==
            ReplaceAll(ReplaceAll(s, "{" + b.name + "}", b.value), "{" + c.name + "}", c.value)
    ensures Env([b, c]) == map[c.name := c.value][b.name := b.value]
  {
    assert [b, c][1..] == [c];
    OneBinding(ReplaceAll(s, "{" + b.name + "}", b.value), c);
  }

  /** A step before: what goes wrong once `name` is filled goes wrong with `name` first. */
  lemma WrongBefore(s: string, name: string, value: string, bs: seq<Binding>, last: Binding)
    requires HasName(s, name) && BraceFree(value)
    requires Wrong(Simultaneous(s, map[name := value]), bs, last) && Avoids(bs + [last], {name})
    ensures Wrong(s, [Binding(name, value)] + bs, last)
  {
    var b, filled, rest := Binding(name, value), Simultaneous(s, map[name := value]), bs + [last];
    var all := [b] + bs + [last];
    assert all == [b] + rest && all[1..] == rest && ([b] + bs)[1..] == bs;
    assert rest[|bs|] == last;
    NameFits(s, name);
    ReplaceIsSimultaneous(s, name, value);
    if HasName(s, last.name) {
      OthersStay(s, name, value, last.name);
    }
    EnvIsClean(rest);
    TwoStagesLeaveFewer(s, name, value, Env(rest));
    DistinctFirst(b, rest);
  }

  lemma DistinctFirst(b: Binding, rest: seq<Binding>)
    requires DistinctNames(rest) && Avoids(rest, {b.name})
    ensures DistinctNames([b] + rest)
  {
    var all := [b] + rest;
    assert forall i :: 0 < i < |all| ==> all[i] == rest[i - 1];
  }

  lemma {:induction false} FindWrong(s: string, names: set<string>) returns (bs: seq<Binding>, last: Binding)
    requires !CaptureFree(s) && Gone(s, names)
    ensures Wrong(s, bs, last) && Avoids(bs + [last], names)
    decreases Count(s, '{')
  {
    var value := Dashes(|s| + 1);
    var name, next := NextName(s, value);
    if Makes(s, name, value, next) {
      bs, last := FoundAtOnce(s, names, name, value, next);
    } else {
      GoneLater(s, name, value, names);
      FillingShows(s, name, value);
      bs, last := FindWrong(Simultaneous(s, map[name := value]), names + {name});
      FoundBefore(s, names, name, value, bs, last);
      bs := [Binding(name, value)] + bs;
    }
  }

  lemma FoundAtOnce(s: string, names: set<string>, name: string, value: string, next: string)
    returns (bs: seq<Binding>, last: Binding)
    requires Gone(s, names) && HasName(s, name) && BraceFree(value) && |value| > |s| && Makes(s, name, value, next)
    ensures Wrong(s, bs, last) && Avoids(bs + [last], names)
  {
    bs, last := [Binding(name, value)], Binding(next, value);
    WrongAtOnce(s, name, value, next);
  }

  lemma FoundBefore(s: string, names: set<string>, name: string, value: string, bs: seq<Binding>, last: Binding)
    requires Gone(s, names) && HasName(s, name) && BraceFree(value)
    requires Wrong(Simultaneous(s, map[name := value]), bs, last) && Avoids(bs + [last], names + {name})
    ensures var all := [Binding(name, value)] + bs; Wrong(s, all, last) && Avoids(all + [last], names)
  {
    var b := Binding(name, value);
    AvoidsMore(b, bs + [last], names);
    WrongBefore(s, name, value, bs, last);
    assert [b] + (bs + [last]) == ([b] + bs) + [last];
  }

  lemma AvoidsMore(b: Binding, rest: seq<Binding>, names: set<string>)
    requires Avoids(rest, names + {b.name}) && b.name !in names
    ensures Avoids([b] + rest, names) && Avoids(rest, {b.name})
  {
  }

  /** Every template that captures has clean, distinctly named parameters for which replacing one
      after another fills a placeholder that is not in the template. */
  lemma CapturedGoesWrong(s: string) returns (bindings: seq<Binding>)
    requires !CaptureFree(s)
    ensures Clean(bindings) && DistinctNames(bindings)
    ensures Count(Expand(s, bindings), '{') < Left(s, Env(bindings))
  {
    var bs, last := FindWrong(s, {});
    bindings := bs + [last];
  }

  /** And it has such parameters for which the order decides the path. */
  lemma CapturedOrderMatters(s: string) returns (a: seq<Binding>, b: seq<Binding>)
    requires !CaptureFree(s)
    ensures Reordered(a, b) && Expand(s, a) != Expand(s, b)
  {
    var bs, last := FindWrong(s, {});
    a, b := bs + [last], [last] + bs;
    assert a[|bs|] == last && forall i :: 0 <= i < |bs| ==> a[i] == bs[i];
    DistinctFirst(last, bs);
    ReplaceIsSimultaneous(s, last.name, last.value);
    Untouched(s, last.name, last.value);
    assert b[1..] == bs;
  }

  lemma {:induction false} EnvIsClean(bindings: seq<Binding>)
    requires Clean(bindings)
    ensures forall x :: x in Env(bindings) ==> BraceFree(Env(bindings)[x])
    decreases |bindings|
  {
    if bindings != [] {
      EnvIsClean(bindings[1..]);
    }
  }

  /** The exact condition: one replacement after another fills all placeholders at once, for all
      clean parameters, exactly in the templates that have no brace pair around a placeholder with
      only text and placeholders in it. */
  lemma AtOnceExactlyWhenCaptureFree(s: string)
    ensures CaptureFree(s) <==> forall bs: seq<Binding> :: Clean(bs) ==> Expand(s, bs) == Simultaneous(s, Env(bs))
  {
    if CaptureFree(s) {
      forall bs: seq<Binding> | Clean(bs)
        ensures Expand(s, bs) == Simultaneous(s, Env(bs))
      {
        ExpandIsSimultaneous(s, bs);
      }
    } else {
      var bs := CapturedGoesWrong(s);
      assert Clean(bs) && Expand(s, bs) != Simultaneous(s, Env(bs));
    }
  }

  /** So the order of distinctly named clean parameters never matters exactly in these templates. */
  lemma OrderNeverMattersExactlyWhenCaptureFree(s: string)
    ensures CaptureFree(s) <==>
            forall a: seq<Binding>, b: seq<Binding> :: Reordered(a, b) ==> Expand(s, a) == Expand(s, b)
  {
    if CaptureFree(s) {
      forall a: seq<Binding>, b: seq<Binding> | Reordered(a, b)
        ensures Expand(s, a) == Expand(s, b)
      {
        OrderDoesNotMatter(s, a, b);
      }
    } else {
      var a, b := CapturedOrderMatters(s);
    }
  }
}
