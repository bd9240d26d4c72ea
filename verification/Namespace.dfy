/** Where the pods are looked up: read_trimmed, is_valid_namespace and resolve_namespace of pod_list.c. */
module Namespace {
  import opened Prelude
  import opened Text

  const MAX_NAMESPACE_SIZE := 64

  // ---------- read_trimmed ----------

  predicate IsBlank(c: char) {
    c in " \t\r\n"
  }

  /** What the loop at the end of the text removes: strchr also finds the NUL that ends its list. */
  predicate IsTrailing(c: char) {
    IsBlank(c) || c == NUL
  }

  function StripEnd(s: string): string {
    if s != "" && IsTrailing(s[|s| - 1]) then StripEnd(s[..|s| - 1]) else s
  }

  function StripStart(s: string): string {
    if s != "" && IsBlank(s[0]) then StripStart(s[1..]) else s
  }

  /** The text of a file with surrounding whitespace removed, as C sees it afterwards. */
  function Trimmed(content: string): string {
    CString(StripStart(StripEnd(content)))
  }

  /** `text` is `s` without the whitespace around it. */
  ghost predicate IsStripped(s: string, before: string, text: string, after: string) {
    && s == before + text + after
    && (forall k :: 0 <= k < |before| ==> IsBlank(before[k]))
    && (forall k :: 0 <= k < |after| ==> IsBlank(after[k]))
    && (text == "" ==> before == "")
    && (text != "" ==> !IsBlank(text[0]) && !IsBlank(text[|text| - 1]))
  }

  lemma {:induction false} StripEndAt(s: string, n: nat)
    requires n <= |s| && (forall k :: n <= k < |s| ==> IsTrailing(s[k]))
    requires n > 0 ==> !IsTrailing(s[n - 1])
    ensures StripEnd(s) == s[..n]
    decreases |s|
  {
    if n < |s| {
      StripEndAt(s[..|s| - 1], n);
      assert s[..|s| - 1][..n] == s[..n];
    } else {
      assert s[..n] == s;
    }
  }

  lemma {:induction false} StripStartAt(s: string, n: nat)
    requires n <= |s| && (forall k :: 0 <= k < n ==> IsBlank(s[k]))
    requires n < |s| ==> !IsBlank(s[n])
    ensures StripStart(s) == s[n..]
  {
    if n > 0 {
      StripStartAt(s[1..], n - 1);
      assert s[1..][n - 1..] == s[n..];
    }
  }

  /** Of a file without NUL bytes exactly the whitespace around its text goes. */
  lemma TrimmedStrips(content: string, before: string, text: string, after: string)
    requires NUL !in content && IsStripped(content, before, text, after)
    ensures Trimmed(content) == text
  {
    var n := |before| + |text|;
    assert content[..n] == before + text;
    assert n > 0 ==> content[n - 1] == text[|text| - 1] && content[n - 1] in content;
    assert forall k :: n <= k < |content| ==> content[k] == after[k - n];
    StripEndAt(content, n);
    StripStartAt(before + text, |before|);
    assert (before + text)[|before|..] == text;
    assert NUL !in text by {
      assert forall c :: c in text ==> c in content;
    }
    CStringWhole(text, "");
  }

  /** The loop that cuts the end. */
  method CutEnd(buf: array<char>, n: nat, ghost content: string) returns (len: nat)
    requires n == |content| < buf.Length && buf[..n] == content && buf[n] == NUL
    modifies buf
    ensures len <= n && (len > 0 ==> !IsTrailing(content[len - 1]))
    ensures forall k :: len <= k < n ==> IsTrailing(content[k])
    ensures buf[..len] == content[..len] && buf[len] == NUL
  {
    len := n;
    while len > 0 && IsTrailing(buf[len - 1])
      invariant len <= n
      invariant buf[..len] == content[..len] && buf[len] == NUL
      invariant forall k :: len <= k < n ==> IsTrailing(content[k])
    {
      assert buf[len - 1] == buf[..len][len - 1];
      len := len - 1;
      buf[len] := NUL;
      assert buf[..len] == content[..len + 1][..len];
    }
    assert len > 0 ==> buf[len - 1] == buf[..len][len - 1];
  }

  /** memmove(buf, buf + lead, n). */
  method MoveDown(buf: array<char>, lead: nat, n: nat)
    requires lead + n <= buf.Length
    modifies buf
    ensures buf[..n] == old(buf[lead..lead + n])
  {
    var i := 0;
    while i < n
      invariant i <= n
      invariant forall k :: 0 <= k < i ==> buf[k] == old(buf[k + lead])
      invariant forall k :: i <= k < buf.Length ==> buf[k] == old(buf[k])
    {
      buf[i] := buf[i + lead];
      i := i + 1;
    }
  }

  /** fread, snprintf: the start of a text into the buffer. */
  method Fill(buf: array<char>, text: string, n: nat)
    requires n <= buf.Length && n <= |text|
    modifies buf
    ensures buf[..n] == text[..n]
  {
    var i := 0;
    while i < n
      invariant i <= n
      invariant buf[..i] == text[..i]
    {
      buf[i] := text[i];
      i := i + 1;
    }
  }

  /** strspn and memmove: the text without its leading whitespace moves to the front. */
  method CutStart(buf: array<char>, len: nat, ghost kept: string)
    requires len == |kept| < buf.Length && buf[..len] == kept && buf[len] == NUL
    modifies buf
    ensures CString(buf[..]) == CString(StripStart(kept))
    ensures buf[0] == NUL <==> CString(StripStart(kept)) == ""
  {
    var lead := 0;
    while IsBlank(buf[lead])
      invariant lead <= len
      invariant forall k :: 0 <= k < lead ==> IsBlank(kept[k])
      decreases len - lead
    {
      assert buf[lead] == if lead < len then buf[..len][lead] else NUL;
      lead := lead + 1;
    }
    assert lead < len ==> buf[lead] == buf[..len][lead];
    StripStartAt(kept, lead);
    assert buf[lead..len + 1] == kept[lead..] + [NUL];
    MoveDown(buf, lead, len - lead + 1);
    assert buf[..] == buf[..len - lead + 1] + buf[len - lead + 1..];
    CStringCut(kept[lead..], buf[len - lead + 1..]);
  }

  /** read_trimmed; None is a file that cannot be opened. */
  method ReadTrimmed(content: Option<string>, buf: array<char>) returns (ok: bool)
    modifies buf
    ensures ok <==> content.Some? && |content.value| < buf.Length && Trimmed(content.value) != ""
    ensures ok ==> CString(buf[..]) == Trimmed(content.value)
  {
    if content.None? {
      return false;
    }
    var text := content.value;
    var n := if |text| < buf.Length then |text| else buf.Length;
    Fill(buf, text, n);
    if n == buf.Length {
      return false;
    }
    assert text[..n] == text;
    buf[n] := NUL;
    var len := CutEnd(buf, n, text);
    StripEndAt(text, len);
    CutStart(buf, len, text[..len]);
    ok := buf[0] != NUL;
  }

  // ---------- is_valid_namespace ----------

  predicate IsLetterOrDigit(c: char) {
    'a' <= c <= 'z' || '0' <= c <= '9'
  }

  predicate IsValidNamespace(name: string) {
    && 0 < |name| < MAX_NAMESPACE_SIZE
    && (forall k :: 0 <= k < |name| ==> IsLetterOrDigit(name[k]) || name[k] == '-')
    && name[0] != '-' && name[|name| - 1] != '-'
  }

  /** What may follow the first character of a label: letters, digits and hyphens, a hyphen not last. */
  predicate IsLabelRest(s: string) {
    s == "" || (IsLetterOrDigit(s[0]) && IsLabelRest(s[1..])) || (s[0] == '-' && s[1..] != "" && IsLabelRest(s[1..]))
  }

  /** A label by the grammar of section 2.3.1 of RFC 1035 as section 2.1 of RFC 1123 relaxes it, in
      lower case: a letter or digit, then perhaps more, the last one a letter or digit again. */
  predicate IsLabel(s: string) {
    0 < |s| <= 63 && IsLetterOrDigit(s[0]) && IsLabelRest(s[1..])
  }

  lemma {:induction false} LabelRestAt(s: string)
    ensures IsLabelRest(s) <==>
              && (forall k :: 0 <= k < |s| ==> IsLetterOrDigit(s[k]) || s[k] == '-')
              && (s != "" ==> s[|s| - 1] != '-')
  {
    if s != "" {
      var rest := s[1..];
      LabelRestAt(rest);
      assert forall k :: 0 < k < |s| ==> s[k] == rest[k - 1];
      assert forall k :: 0 <= k < |rest| ==> rest[k] == s[k + 1];
    }
  }

  /** is_valid_namespace accepts exactly the labels. */
  lemma ValidIsLabel(name: string)
    ensures IsValidNamespace(name) <==> IsLabel(name)
  {
    if name != "" {
      var rest := name[1..];
      LabelRestAt(rest);
      assert forall k :: 0 < k < |name| ==> name[k] == rest[k - 1];
      assert forall k :: 0 <= k < |rest| ==> rest[k] == name[k + 1];
    }
  }

  // ---------- resolve_namespace ----------

  /** An environment value as the buffer holds it. */
  function Cut(env: string): string {
    if |env| < MAX_NAMESPACE_SIZE then env else env[..MAX_NAMESPACE_SIZE - 1]
  }

  /** The text that is validated: DEPLOYMENT_ENV when set and not empty, otherwise the file's. */
  function Candidate(env: Option<string>, file: Option<string>): Option<string> {
    if env.Some? && env.value != "" then Some(Cut(env.value))
    else if file.Some? && |file.value| < MAX_NAMESPACE_SIZE && Trimmed(file.value) != "" then Some(Trimmed(file.value))
    else None
  }

  function Resolve(env: Option<string>, file: Option<string>): Option<string> {
    var name := Candidate(env, file);
    if name.Some? && IsValidNamespace(name.value) then name else None
  }

  /** resolve_namespace. */
  method ResolveNamespace(env: Option<string>, file: Option<string>) returns (r: Option<string>)
    requires env.Some? ==> NUL !in env.value
    ensures r == Resolve(env, file)
  {
    var buf := new char[MAX_NAMESPACE_SIZE];
    if env.Some? && env.value != "" {
      var text := env.value;
      var n := if |text| < MAX_NAMESPACE_SIZE then |text| else MAX_NAMESPACE_SIZE - 1;
      Fill(buf, text, n);
      buf[n] := NUL;
      assert Cut(text) == text[..n];
      assert buf[..] == text[..n] + [NUL] + buf[n + 1..];
      assert NUL !in text[..n] by {
        assert forall c :: c in text[..n] ==> c in text;
      }
      CStringWhole(text[..n], buf[n + 1..]);
    } else {
      var ok := ReadTrimmed(file, buf);
      if !ok {
        return None;
      }
    }
    var name := CString(buf[..]);
    r := if IsValidNamespace(name) then Some(name) else None;
  }

  /** A name set in the environment is used as it is exactly when it is a label. */
  lemma EnvironmentNameIsUsed(env: string, file: Option<string>)
    requires env != ""
    ensures Resolve(Some(env), file) == Some(env) <==> IsLabel(env)
  {
    ValidIsLabel(env);
  }

  /** Another name than the one set is used exactly when that one is too long and its first 63
      characters make a label: it is cut before it is validated. */
  lemma OverlongEnvironmentNameIsCut(env: string, file: Option<string>)
    requires env != ""
    ensures Resolve(Some(env), file) !in {None, Some(env)} <==> |env| > 63 && IsLabel(env[..63])
    ensures |env| > 63 && IsLabel(env[..63]) ==> Resolve(Some(env), file) == Some(env[..63])
  {
    if |env| > 63 {
      ValidIsLabel(env[..63]);
    }
  }

  /** With nothing in the environment the pod's own namespace is used, whatever whitespace surrounds
      it in a file of fewer than 64 bytes; a file of 64 bytes or more counts as unreadable, even
      around a good label. */
  lemma FileNameIsUsed(content: string, before: string, text: string, after: string, env: Option<string>)
    requires env.None? || env.value == ""
    requires NUL !in content && IsStripped(content, before, text, after)
    ensures Resolve(env, Some(content)) == if |content| < 64 && IsLabel(text) then Some(text) else None
  {
    TrimmedStrips(content, before, text, after);
    ValidIsLabel(text);
  }
}
