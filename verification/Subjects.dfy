/** The subject parameter of a request: app:environment:cluster, of which only the cluster may hold colons. */
module Subjects {
  import opened Text
  import opened Keyset

  datatype Subject = Subject(app: string, environment: string, cluster: string)

  /** The text before the first separator, all of it if there is none. */
  function UpTo(s: string, sep: char): (r: string)
    ensures r <= s && sep !in r && (sep in s <==> |r| < |s|) && (|r| < |s| ==> s[|r|] == sep)
  {
    if s == "" || s[0] == sep then ""
    else
      var r := UpTo(s[1..], sep);
      assert [s[0]] + r == s[..1 + |r|];
      [s[0]] + r
  }

  /** A text split at its first n - 1 separators. */
  function Split(s: string, sep: char, n: int): (parts: seq<string>)
    ensures 1 <= |parts| && (n >= 1 ==> |parts| <= n)
    decreases n
  {
    if n <= 1 || sep !in s then [s]
    else [UpTo(s, sep)] + Split(s[|UpTo(s, sep)| + 1..], sep, n - 1)
  }

  /** The scan behind it: cut at each separator while parts are left. */
  method SplitN(input: string, sep: char, n: int) returns (out: seq<string>)
    ensures out == Split(input, sep, n)
  {
    hide Split, UpTo;
    out := [];
    var last := 0;
    assert input[0..] == input;
    for i := 0 to |input|
      invariant 0 <= last <= i
      invariant out + Split(input[last..], sep, n - |out|) == Split(input, sep, n)
      invariant sep !in input[last..i] || n - |out| <= 1
    {
      if input[i] == sep && |out| < n - 1 {
        CutAfter(input[last..i], sep, input[i + 1..], n - |out|);
        assert input[last..] == input[last..i] + [sep] + input[i + 1..];
        out := out + [input[last..i]];
        last := i + 1;
      } else {
        assert input[last..i + 1] == input[last..i] + [input[i]];
      }
    }
    assert input[last..|input|] == input[last..];
    WholeRest(input[last..], sep, n - |out|);
    out := out + [input[last..]];
  }

  lemma {:induction false} CutHere(s: string, sep: char, k: nat)
    requires k < |s| && s[k] == sep && sep !in s[..k]
    ensures UpTo(s, sep) == s[..k]
  {
    if k > 0 {
      assert s[0] in s[..k] && s[..k][1..] == s[1..][..k - 1];
      CutHere(s[1..], sep, k - 1);
    }
  }

  lemma CutAfter(head: string, sep: char, rest: string, n: int)
    requires sep !in head && n > 1
    ensures Split(head + [sep] + rest, sep, n) == [head] + Split(rest, sep, n - 1)
  {
    var s := head + [sep] + rest;
    assert s[|head|] == sep && s[..|head|] == head && s[|head| + 1..] == rest;
    CutHere(s, sep, |head|);
  }

  /** None is the error. */
  method ParseSubject(subject: string) returns (parsed: Option<Subject>)
    ensures parsed == Parsed(subject)
  {
    var parts := SplitN(subject, ':', 3);
    if |parts| < 3 {
      return None;
    }
    return Some(Subject(parts[0], parts[1], parts[2]));
  }

  function Parsed(subject: string): Option<Subject> {
    var parts := Split(subject, ':', 3);
    if |parts| < 3 then None else Some(Subject(parts[0], parts[1], parts[2]))
  }

  /** The subject in the form requests carry it. */
  function Written(s: Subject): string {
    s.app + [':'] + (s.environment + [':'] + s.cluster)
  }

  /** Parsing undoes writing, for exactly the subjects whose app and environment hold no colon. */
  lemma ParsedIff(raw: string, s: Subject)
    ensures Parsed(raw) == Some(s) <==> raw == Written(s) && ':' !in s.app && ':' !in s.environment
  {
    if raw == Written(s) && ':' !in s.app && ':' !in s.environment { WrittenParses(s); }
    if Parsed(raw) == Some(s) { ParsedWrites(raw, s); }
  }

  lemma WrittenParses(s: Subject)
    requires ':' !in s.app && ':' !in s.environment
    ensures Parsed(Written(s)) == Some(s)
  {
    hide Split;
    var rest := s.environment + [':'] + s.cluster;
    CutAfter(s.app, ':', rest, 3);
    CutAfter(s.environment, ':', s.cluster, 2);
    WholeRest(s.cluster, ':', 1);
    assert Written(s) == s.app + [':'] + rest;
  }

  lemma WholeRest(s: string, sep: char, n: int)
    requires n <= 1 || sep !in s
    ensures Split(s, sep, n) == [s]
  {
  }

  lemma ParsedWrites(raw: string, s: Subject)
    requires Parsed(raw) == Some(s)
    ensures raw == Written(s) && ':' !in s.app && ':' !in s.environment
  {
    hide Split;
    var rest := FirstCut(raw, ':', 3);
    var last := FirstCut(rest, ':', 2);
    WholeRest(last, ':', 1);
    hide UpTo;
  }

  lemma FirstCut(s: string, sep: char, n: int) returns (rest: string)
    requires n > 1
    ensures sep in s ==>
              Split(s, sep, n) == [UpTo(s, sep)] + Split(rest, sep, n - 1) && s == UpTo(s, sep) + [sep] + rest
    ensures sep !in s ==> Split(s, sep, n) == [s]
  {
    hide UpTo;
    rest := if sep in s then s[|UpTo(s, sep)| + 1..] else "";
  }

  /** The subject a change request gets from its parameter, blanks around it cut off. */
  function Received(param: string): Option<Subject> {
    if Trim(param) == "" then None else Parsed(Trim(param))
  }

  /** The subjects some request carries. */
  predicate Receivable(s: Subject) {
    && ':' !in s.app && ':' !in s.environment
    && (s.app != "" ==> !IsSpace(s.app[0])) && (s.cluster != "" ==> !IsSpace(s.cluster[|s.cluster| - 1]))
  }

  lemma ReceivableIff(s: Subject)
    ensures Receivable(s) <==> exists param :: Received(param) == Some(s)
  {
    hide Parsed;
    WrittenEnds(s);
    ParsedIff(Written(s), s);
    if Receivable(s) {
      assert Trim(Written(s)) == Written(s);
      assert Received(Written(s)) == Some(s);
    }
    if param :| Received(param) == Some(s) {
      ParsedIff(Trim(param), s);
    }
  }

  lemma WrittenEnds(s: Subject)
    ensures var raw := Written(s);
            && raw != "" && raw[0] == (if s.app == "" then ':' else s.app[0])
            && raw[|raw| - 1] == if s.cluster == "" then ':' else s.cluster[|s.cluster| - 1]
  {
  }
}
