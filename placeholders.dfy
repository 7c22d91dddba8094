/** Expansion of `{{name}}` placeholders in command templates: a global,
    single left-to-right pass of the pattern `{{(\w+)}}`, each match replaced
    by the value the replacement map gives its name, or by "" when the name
    is missing or mapped to "". */
module Placeholders {
  import opened Text

  /** `\w`: ASCII letters, digits and underscore. */
  predicate IsWordChar(c: char)
  {
    ('a' <= c <= 'z') || ('A' <= c <= 'Z') || ('0' <= c <= '9') || c == '_'
  }

  predicate IsWord(s: string)
  {
    |s| > 0 && forall k :: 0 <= k < |s| ==> IsWordChar(s[k])
  }

  /** The length of the run of word characters that starts `s`. */
  function WordRun(s: string): (n: nat)
    ensures n <= |s|
    ensures forall k :: 0 <= k < n ==> IsWordChar(s[k])
    ensures n == |s| || !IsWordChar(s[n])
  {
    if s == [] || !IsWordChar(s[0]) then 0 else 1 + WordRun(s[1..])
  }

  /** The placeholder name when `s` starts with `{{name}}`. `\w+` is greedy and
      `}` is not a word character, so the name is the whole run of word
      characters after the braces. */
  function TokenAt(s: string): (r: Option<string>)
    ensures r.Some? ==> IsWord(r.value) && |r.value| + 4 <= |s|
                        && s[..|r.value| + 4] == "{{" + r.value + "}}"
  {
    if |s| >= 2 && s[0] == '{' && s[1] == '{' then
      var n := WordRun(s[2..]);
      if n >= 1 && n + 4 <= |s| && s[n + 2] == '}' && s[n + 3] == '}' then
        Some(s[2..n + 2])
      else None
    else None
  }

  /** `replacements[key] || ""`. */
  function Substitute(replacements: map<string, string>, key: string): string
  {
    if key in replacements then replacements[key] else ""
  }

  /** `command.replace(/{{(\w+)}}/g, (_, key) => replacements[key] || "")`. */
  function ReplacePlaceholders(command: string, replacements: map<string, string>): (r: string)
    ensures '{' !in command ==> r == command
    ensures forall c :: c in r ==> c in command || exists key :: key in replacements && c in replacements[key]
    decreases |command|
  {
    if command == [] then []
    else
      match TokenAt(command)
      case Some(key) =>
        Substitute(replacements, key) + ReplacePlaceholders(command[|key| + 4..], replacements)
      case None =>
        [command[0]] + ReplacePlaceholders(command[1..], replacements)
  }

  /** Some `{{word}}` token occurs in `s`. */
  predicate HasPlaceholder(s: string)
  {
    exists i :: 0 <= i < |s| && TokenAt(s[i..]).Some?
  }

  /** A template without any `{{word}}` token is returned unchanged. */
  lemma {:induction false} NoPlaceholderUnchanged(s: string, replacements: map<string, string>)
    requires !HasPlaceholder(s)
    ensures ReplacePlaceholders(s, replacements) == s
  {
    if s != [] {
      assert s[0..] == s;
      assert TokenAt(s).None?;
      assert !HasPlaceholder(s[1..]) by {
        forall i | 0 <= i < |s[1..]|
          ensures TokenAt(s[1..][i..]).None?
        {
          assert s[1..][i..] == s[i + 1..];
        }
      }
      NoPlaceholderUnchanged(s[1..], replacements);
    }
  }

  /** Text without `{` passes through verbatim, whatever follows it. */
  lemma {:induction false} PlainPrefix(a: string, b: string, replacements: map<string, string>)
    requires '{' !in a
    ensures ReplacePlaceholders(a + b, replacements) == a + ReplacePlaceholders(b, replacements)
  {
    if a != [] {
      assert (a + b)[0] == a[0] && a[0] in a;
      assert TokenAt(a + b).None?;
      assert (a + b)[1..] == a[1..] + b;
      assert ReplacePlaceholders(a + b, replacements)
             == [a[0]] + ReplacePlaceholders(a[1..] + b, replacements);
      PlainPrefix(a[1..], b, replacements);
      assert a == [a[0]] + a[1..];
    } else {
      assert a + b == b;
    }
  }

  /** A `{{key}}` token is replaced by the key's value; a key that is missing
      or mapped to "" yields the empty string. */
  lemma {:induction false} ExpandToken(pre: string, key: string, post: string, replacements: map<string, string>)
    requires '{' !in pre && IsWord(key)
    ensures ReplacePlaceholders(pre + ("{{" + key + "}}" + post), replacements)
            == pre + (Substitute(replacements, key) + ReplacePlaceholders(post, replacements))
    ensures key !in replacements || replacements[key] == ""
            ==> ReplacePlaceholders(pre + ("{{" + key + "}}" + post), replacements)
                == pre + ReplacePlaceholders(post, replacements)
  {
    var t := "{{" + key + "}}" + post;
    PlainPrefix(pre, t, replacements);
    LeadingToken(key, post, replacements);
    if key !in replacements || replacements[key] == "" {
      assert Substitute(replacements, key) + ReplacePlaceholders(post, replacements)
             == ReplacePlaceholders(post, replacements);
    }
  }

  /** A text that starts with a token expands it and then the rest. */
  lemma {:induction false} LeadingToken(key: string, post: string, replacements: map<string, string>)
    requires IsWord(key)
    ensures ReplacePlaceholders("{{" + key + "}}" + post, replacements)
            == Substitute(replacements, key) + ReplacePlaceholders(post, replacements)
  {
    var t := "{{" + key + "}}" + post;
    TokenAtWord(key, post);
    assert t[|key| + 4..] == post;
  }

  /** A text that starts with `{{key}}` has the token `key` at its head. */
  lemma TokenAtWord(key: string, post: string)
    requires IsWord(key)
    ensures TokenAt("{{" + key + "}}" + post) == Some(key)
  {
    var t := "{{" + key + "}}" + post;
    var u := t[2..];
    assert u == key + "}}" + post;
    assert u[|key|] == '}';
    assert forall k :: 0 <= k < |key| ==> u[k] == key[k];
    WordRunOfWord(u, |key|);
    assert t[2..|key| + 2] == key;
  }

  lemma {:induction false} WordRunOfWord(s: string, n: nat)
    requires n < |s| && !IsWordChar(s[n])
    requires forall k :: 0 <= k < n ==> IsWordChar(s[k])
    ensures WordRun(s) == n
  {
    if n > 0 {
      assert s[1..][n - 1] == s[n];
      WordRunOfWord(s[1..], n - 1);
    }
  }

  /** Text without `{` holds no placeholder. */
  lemma NoPlaceholderBraceFree(s: string)
    requires '{' !in s
    ensures !HasPlaceholder(s)
  {
    forall i | 0 <= i < |s| ensures TokenAt(s[i..]).None? {
      assert s[i..][0] == s[i];
    }
  }
}
