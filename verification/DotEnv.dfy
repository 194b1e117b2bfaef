// The .env overlay: bindings for variables the real environment does not have.
module DotEnv {
  import opened Prelude
  import opened Text

  predicate IsQuote(c: char) { c == '"' || c == '\'' }

  // One matching pair of surrounding quotes is stripped.
  function Unquote(s: string): string {
    if |s| >= 2 && IsQuote(s[0]) && s[|s| - 1] == s[0] then s[1..|s| - 1] else s
  }

  // The binding a line holds, if any.
  function Parse(raw: string): Option<(string, string)> {
    var line := TrimSpace(raw);
    if line == "" || HasPrefix(line, "#") then None
    else
      var body := TrimPrefix(line, "export ");
      match IndexOf(body, '=')
      case None => None
      case Some(eq) =>
        if eq == 0 then None
        else
          var key := TrimSpace(body[..eq]);
          var val := Unquote(TrimSpace(body[eq + 1..]));
          if key == "" then None else Some((key, val))
  }

  // The operating system refuses to set a variable whose name or value holds a NUL;
  // the loader ignores the refusal.
  predicate Settable(key: string, val: string) { '\0' !in key && '\0' !in val }

  predicate Binds(line: string, key: string) {
    Parse(line).Some? && Parse(line).value.0 == key && Settable(key, Parse(line).value.1)
  }

  // The value of the first line that binds a name.
  function FirstBinding(lines: seq<string>, key: string): Option<string> {
    if lines == [] then None
    else if Binds(lines[0], key) then Some(Parse(lines[0]).value.1)
    else FirstBinding(lines[1..], key)
  }

  type Env = map<string, string>

  function Lookup(env: Env, key: string): Option<string> { if key in env then Some(env[key]) else None }

  // The real environment, extended by the first binding of each name it lacks.
  ghost predicate Overlays(host: Env, lines: seq<string>, env: Env) {
    forall key :: Lookup(env, key) == if key in host then Some(host[key]) else FirstBinding(lines, key)
  }

  lemma {:induction false} FirstBindingAppend(lines: seq<string>, line: string, key: string)
    ensures FirstBinding(lines + [line], key)
            == if FirstBinding(lines, key).Some? then FirstBinding(lines, key)
               else if Binds(line, key) then Some(Parse(line).value.1) else None
  {
    if lines == [] {
      assert lines + [line] == [line];
    } else {
      assert (lines + [line])[1..] == lines[1..] + [line];
      FirstBindingAppend(lines[1..], line, key);
    }
  }

  class Environment {
    var vars: Env

    // `lines` is what the scanner delivers, in order.
    method LoadDotEnv(lines: seq<string>)
      modifies this
      ensures Overlays(old(vars), lines, vars)
    {
      for i := 0 to |lines|
        invariant Overlays(old(vars), lines[..i], vars)
      {
        ghost var before := vars;
        assert lines[..i + 1] == lines[..i] + [lines[i]];
        var binding := Parse(lines[i]);
        if binding.Some? {
          var (key, val) := binding.value;
          if key !in vars && Settable(key, val) {
            vars := vars[key := val];
          }
        }
        forall k
          ensures Lookup(vars, k) == if k in old(vars) then Some(old(vars)[k]) else FirstBinding(lines[..i + 1], k)
        {
          FirstBindingAppend(lines[..i], lines[i], k);
          assert Lookup(before, k) == if k in old(vars) then Some(old(vars)[k]) else FirstBinding(lines[..i], k);
        }
      }
      assert lines[..|lines|] == lines;
    }
  }

  // No variable of the real environment changes or goes away.
  lemma RealEnvironmentWins(host: Env, lines: seq<string>, env: Env)
    requires Overlays(host, lines, env)
    ensures forall key :: key in host ==> key in env && env[key] == host[key]
  {
  }

  // Loading the same file again changes nothing, and the result of loading is
  // determined by the environment and the lines.
  lemma LoadingAgainChangesNothing(host: Env, lines: seq<string>, once: Env, twice: Env)
    requires Overlays(host, lines, once) && Overlays(once, lines, twice)
    ensures twice == once
  {
  }

  lemma {:induction false} FirstEquals(key: string, rest: string)
    requires '=' !in key
    ensures IndexOf(key + "=" + rest, '=') == Some(|key|)
  {
    var s := key + "=" + rest;
    if key != "" {
      assert key[0] in key;
      assert s[1..] == key[1..] + "=" + rest;
      FirstEquals(key[1..], rest);
    }
  }

  lemma TrimmedParts(line: string, body: string, name: string, value: string)
    requires line != "" && TrimSpace(line) == line && line[0] != '#'
    requires TrimPrefix(line, "export ") == body && body == name + "=" + value
    requires '=' !in name && TrimSpace(name) != ""
    ensures Parse(line) == Some((TrimSpace(name), Unquote(TrimSpace(value))))
  {
    FirstEquals(name, value);
    assert TrimSpace("") == "";
    assert body[..|name|] == name && body[|name| + 1..] == value;
  }

  // White space around a line does not matter.
  lemma PaddingIgnored(before: string, line: string, behind: string)
    requires AllSpace(before) && AllSpace(behind) && Bare(line)
    ensures Parse(before + line + behind) == Parse(line)
  {
    TrimPadded(before, line, behind);
    TrimFixed(line);
  }

  // No '=', or nothing but white space in front of it.
  ghost predicate Nameless(body: string) {
    '=' !in body || exists pad, rest :: body == pad + "=" + rest && AllSpace(pad)
  }

  // Blank lines, comment lines and lines without a name bind nothing.
  lemma BindsNothing(line: string)
    requires Bare(line)
    requires line == "" || line[0] == '#' || Nameless(TrimPrefix(line, "export "))
    ensures Parse(line).None?
  {
    TrimFixed(line);
    var body := TrimPrefix(line, "export ");
    if line != "" && line[0] != '#' && '=' in body {
      var pad, rest :| body == pad + "=" + rest && AllSpace(pad);
      FirstEquals(pad, rest);
      assert body[..|pad|] == pad;
      TrimPadded(pad, "", "");
      assert pad + "" + "" == pad;
    }
  }

  // A name or a value with a NUL in it is not set, so a later line may still bind the name.
  lemma NulIsNotSet(line: string, rest: seq<string>, key: string)
    requires Parse(line).Some? && ('\0' in Parse(line).value.0 || '\0' in Parse(line).value.1)
    ensures FirstBinding([line] + rest, key) == FirstBinding(rest, key)
  {
    assert ([line] + rest)[1..] == rest;
  }

  // A value without a matching pair of quotes is taken as it is.
  lemma UnquotedAsIs(val: string)
    requires |val| < 2 || !IsQuote(val[0]) || val[|val| - 1] != val[0]
    ensures Unquote(val) == val
  {
  }

  lemma BarePieces(prefix: string, name: string, value: string)
    requires prefix in {"", "export "} && name != "" && !IsSpace(name[0])
    requires value == "" || !IsSpace(value[|value| - 1])
    ensures Bare(prefix + (name + "=" + value)) && prefix + (name + "=" + value) != ""
  {
    var line := prefix + (name + "=" + value);
    assert line[|line| - 1] == if value == "" then '=' else value[|value| - 1];
  }

  // `name` and `value` are key and val with white space around them.
  lemma PaddedBinding(prefix: string, name: string, key: string, value: string, val: string)
    requires prefix in {"", "export "} && name != "" && !IsSpace(name[0]) && '=' !in name
    requires value == "" || !IsSpace(value[|value| - 1])
    requires prefix == "" ==> name[0] != '#' && !HasPrefix(name + "=" + value, "export ")
    requires TrimSpace(name) == key && key != "" && TrimSpace(value) == val
    ensures Parse(prefix + (name + "=" + value)) == Some((key, Unquote(val)))
  {
    var body := name + "=" + value;
    BarePieces(prefix, name, value);
    TrimFixed(prefix + body);
    assert TrimPrefix(prefix + body, "export ") == body;
    TrimmedParts(prefix + body, body, name, value);
  }

  // The name is what is in front of the first '=', the value what is behind it, trimmed
  // and unquoted; white space around the line, the name and the value and a leading
  // `export ` do not matter.
  lemma BindingReadsBack(before: string, exported: bool, key: string, left: string, right: string, value: string,
                         behind: string)
    requires AllSpace(before) && AllSpace(left) && AllSpace(right) && AllSpace(behind)
    requires key != "" && Bare(key) && '=' !in key && Bare(value) && (value == "" ==> right == "")
    requires !exported ==> key[0] != '#' && !HasPrefix((key + left) + "=" + (right + value), "export ")
    ensures Parse(before + ((if exported then "export " else "") + ((key + left) + "=" + (right + value))) + behind)
            == Some((key, Unquote(value)))
  {
    var prefix := if exported then "export " else "";
    var name, text := key + left, right + value;
    assert name == "" + key + left && text == right + value + "";
    TrimPadded("", key, left);
    TrimPadded(right, value, "");
    NoEquals(key, left);
    BarePieces(prefix, name, text);
    PaddedBinding(prefix, name, key, text, value);
    PaddingIgnored(before, prefix + (name + "=" + text), behind);
  }

  lemma NoEquals(key: string, left: string)
    requires '=' !in key && AllSpace(left)
    ensures '=' !in key + left
  {
  }

  lemma QuotedText(val: string, quote: char)
    requires IsQuote(quote)
    ensures var value := [quote] + val + [quote]; TrimSpace(value) == value && Unquote(value) == val
  {
    var value := [quote] + val + [quote];
    TrimFixed(value);
    assert value[1..|value| - 1] == val;
  }

  lemma QuotedLine(prefix: string, key: string, val: string, quote: char)
    requires key != "" && TrimSpace(key) == key && IsQuote(quote) && prefix in {"", "export "}
    ensures var line := prefix + (key + "=" + ([quote] + val + [quote]));
            line != "" && TrimSpace(line) == line && line[0] == (if prefix == "" then key[0] else 'e')
  {
    TrimFixed(key);
    var line := prefix + (key + "=" + ([quote] + val + [quote]));
    assert line[|line| - 1] == quote;
    TrimFixed(line);
  }

  // The supported syntax reads back: a quoted value, with or without a leading
  // `export `, binds exactly the text between the quotes.
  lemma QuotedValueReadsBack(key: string, val: string, quote: char, exported: bool)
    requires key != "" && TrimSpace(key) == key && '=' !in key && (quote == '"' || quote == '\'')
    requires !exported ==> key[0] != '#' && !HasPrefix(key + "=" + ([quote] + val + [quote]), "export ")
    ensures Parse((if exported then "export " else "") + (key + "=" + ([quote] + val + [quote]))) == Some((key, val))
  {
    var prefix := if exported then "export " else "";
    var value := [quote] + val + [quote];
    QuotedText(val, quote);
    QuotedLine(prefix, key, val, quote);
    assert TrimPrefix(prefix + (key + "=" + value), "export ") == key + "=" + value;
    TrimmedParts(prefix + (key + "=" + value), key + "=" + value, key, value);
  }
}
