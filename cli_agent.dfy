/**
 * The command-line agent: it picks an intent from the prompt's words,
 * extracts a search text by dropping a leading "search" or "find", cuts long
 * prompts to an 80-character ticket title, and, without a chat-completion
 * key, answers with a fixed template around the gathered contexts.
 */
module CliAgent {
  import opened Wrappers
  import opened Json
  import opened Strings
  import opened Seqs
  import opened Schema
  import Registry

  /** Words that make the prompt a ticket; checked first. */
  const TicketWords: seq<string> := ["ticket", "support"]

  /** Words that make the prompt a product search. */
  const SearchWords: seq<string> := ["search", "find", "price", "laptop"]

  /**
   * `detectIntent(prompt)`: a ticket when the lower-cased prompt contains a
   * ticket word, otherwise a search when it contains a search word,
   * otherwise a RAG query. Some intent is always chosen.
   */
  function DetectIntent(prompt: string): (intent: string)
    ensures intent in {"create_ticket", "search_db", "rag_query"}
    ensures intent == "create_ticket" <==> Mentions(Lower(prompt), TicketWords)
    ensures intent == "search_db" <==> !Mentions(Lower(prompt), TicketWords) && Mentions(Lower(prompt), SearchWords)
    ensures intent == "rag_query" <==> !Mentions(Lower(prompt), TicketWords) && !Mentions(Lower(prompt), SearchWords)
  {
    var p := Lower(prompt);
    if Mentions(p, TicketWords) then "create_ticket"
    else if Mentions(p, SearchWords) then "search_db"
    else "rag_query"
  }

  /** A prompt that opens with "search" or "find", in any casing, and names no ticket word is a search. */
  lemma VerbPromptSearches(prompt: string)
    requires StartsWith(Lower(prompt), "search") || StartsWith(Lower(prompt), "find")
    requires !Mentions(Lower(prompt), TicketWords)
    ensures DetectIntent(prompt) == "search_db"
  {
    var p := Lower(prompt);
    if StartsWith(p, "search") {
      ContainsAt(p, "search", 0);
      assert "search" in SearchWords;
    } else {
      ContainsAt(p, "find", 0);
      assert "find" in SearchWords;
    }
  }

  /**
   * The length of the text `^(search|find)` matches when case is ignored:
   * "search" is tried before "find"; 0 when neither opens the prompt.
   */
  function VerbLength(prompt: string): (n: nat)
    ensures n <= |prompt|
    ensures n == 6 <==> StartsWith(Lower(prompt), "search")
    ensures n == 4 <==> !StartsWith(Lower(prompt), "search") && StartsWith(Lower(prompt), "find")
    ensures n == 0 <==> !StartsWith(Lower(prompt), "search") && !StartsWith(Lower(prompt), "find")
  {
    if StartsWith(Lower(prompt), "search") then 6
    else if StartsWith(Lower(prompt), "find") then 4
    else 0
  }

  // `prompt.replace(/^(search|find)\s*/i, "")`: the verb and the white space after it removed.
  function StripVerb(prompt: string): (rest: string)
    ensures |rest| <= |prompt| - VerbLength(prompt) && rest == prompt[|prompt| - |rest|..]
    ensures SpaceBetween(prompt, VerbLength(prompt), |prompt| - |rest|)
    ensures rest != [] ==> !IsJsSpace(rest[0])
  {
    var n := VerbLength(prompt);
    var rest := TrimStart(prompt[n..]);
    assert forall i :: n <= i < |prompt| - |rest| ==> prompt[i] == prompt[n..][i - n];
    rest
  }

  /**
   * `extractQuery(prompt)`: the trimmed remainder after the verb, or the
   * trimmed prompt when that remainder is blank. The result is a piece of
   * the prompt with no white space at either end, and it is empty exactly
   * when the prompt is blank.
   */
  function ExtractQuery(prompt: string): (q: string)
    ensures q == [] <==> AllSpace(prompt)
    ensures q != [] ==> !IsJsSpace(q[0]) && !IsJsSpace(q[|q| - 1])
    ensures Contains(prompt, q)
    ensures VerbLength(prompt) == 0 ==> q == Trim(prompt)
  {
    var rest := StripVerb(prompt);
    var t := Trim(rest);
    RemainderFacts(prompt, rest, t);
    if t != [] then t
    else
      TrimmedWithin(prompt, Trim(prompt));
      Trim(prompt)
  }

  /** The trimmed remainder lies in the prompt, is blank only for a blank prompt, and is the trimmed prompt when no verb was removed. */
  lemma RemainderFacts(prompt: string, rest: string, t: string)
    requires rest == StripVerb(prompt) && t == Trim(rest)
    ensures Contains(prompt, t)
    ensures t != [] ==> !AllSpace(prompt)
    ensures VerbLength(prompt) == 0 ==> t == Trim(prompt)
  {
    var k := |prompt| - |rest|;
    assert rest == prompt[k..];
    SuffixTrim(prompt, k, t);
    if VerbLength(prompt) == 0 {
      NoVerbRemainder(prompt, rest);
    }
  }

  /** What is trimmed from a suffix of `s` lies in `s`, and is blank only when `s` is. */
  lemma SuffixTrim(s: string, k: nat, t: string)
    requires k <= |s| && TrimmedFrom(s[k..], t)
    ensures Contains(s, t)
    ensures t != [] ==> !AllSpace(s)
  {
    TrimmedWithin(s[k..], t);
    ContainsWithin(s[..k], s[k..], "", t);
    assert s[..k] + s[k..] + "" == s;
    if t != [] {
      var u := s[k..];
      var a :| 0 <= a <= |u| - |t| && t == u[a..a + |t|] && SpaceBetween(u, 0, a) && SpaceBetween(u, a + |t|, |u|);
      assert s[k + a] == u[a] == t[0];
    }
  }

  /** With no verb, removing the leading white space first does not change the trimmed result. */
  lemma NoVerbRemainder(prompt: string, rest: string)
    requires VerbLength(prompt) == 0 && rest == StripVerb(prompt)
    ensures Trim(rest) == Trim(prompt)
  {
    assert prompt[0..] == prompt;
    assert rest == TrimStart(prompt);
    if rest != [] {
      TrimStartAfterSpace("", rest);
      assert [] + rest == rest;
    }
  }

  /** A trimmed string is a piece of the string it was trimmed from. */
  lemma TrimmedWithin(s: string, r: string)
    requires TrimmedFrom(s, r)
    ensures Contains(s, r)
  {
    var a :| 0 <= a <= |s| - |r| && r == s[a..a + |r|] && SpaceBetween(s, 0, a) && SpaceBetween(s, a + |r|, |s|);
    ContainsAt(s, r, a);
  }

  /** Dropping leading white space before a non-space character stops at that character. */
  lemma TrimStartAfterSpace(gap: string, s: string)
    requires AllSpace(gap) && s != [] && !IsJsSpace(s[0])
    ensures TrimStart(gap + s) == s
  {
    var g := gap + s;
    assert g[|gap|] == s[0];
    assert forall i :: 0 <= i < |gap| ==> g[i] == gap[i];
    assert g[|g| - |s|..] == s;
  }

  /** "Search laptops", "find  desk lamp": the verb and the gap after it are dropped, the rest kept as it is. */
  lemma VerbRemoved(verb: string, gap: string, s: string)
    requires Lower(verb) == "search" || Lower(verb) == "find"
    requires AllSpace(gap) && s != [] && !IsJsSpace(s[0]) && !IsJsSpace(s[|s| - 1])
    ensures ExtractQuery(verb + gap + s) == s
  {
    var prompt := verb + gap + s;
    LowerAppend(verb, gap + s);
    assert verb + (gap + s) == prompt;
    assert Lower(prompt)[..|verb|] == Lower(verb);
    if Lower(verb) == "find" {
      assert Lower(prompt)[0] == 'f';
      assert !StartsWith(Lower(prompt), "search");
    }
    assert VerbLength(prompt) == |verb|;
    assert prompt[|verb|..] == gap + s;
    TrimStartAfterSpace(gap, s);
    TrimOfUntrimmed(s);
  }

  /** `prompt.length > 80 ? prompt.slice(0, 77) + "..." : prompt`. */
  function TicketTitle(prompt: string): (title: string)
    ensures |prompt| <= 80 ==> title == prompt
    ensures |prompt| > 80 ==> |title| == 80 && title[..77] == prompt[..77] && title[77..] == "..."
  {
    if |prompt| > 80 then prompt[..77] + "..." else prompt
  }

  /** A title is never longer than 80 characters, and is at least 5 long exactly when the prompt is. */
  lemma TitleLength(prompt: string)
    ensures |TicketTitle(prompt)| <= 80
    ensures |TicketTitle(prompt)| >= 5 <==> |prompt| >= 5
  {
  }

  /** The `rag_query` input the agent sends first. */
  function RagRequest(prompt: string): (j: Json)
    ensures Member(j, "query") == Some(JStr(ExtractQuery(prompt))) && Member(j, "topK") == Some(JNum(3.0))
  {
    Object2("query", JStr(ExtractQuery(prompt)), "topK", JNum(3.0))
  }

  /** The `search_db` input sent for a search. */
  function SearchRequest(prompt: string): (j: Json)
    ensures Member(j, "q") == Some(JStr(ExtractQuery(prompt))) && Member(j, "limit") == Some(JNum(5.0))
  {
    Object2("q", JStr(ExtractQuery(prompt)), "limit", JNum(5.0))
  }

  /** The `create_ticket` input sent for a ticket. */
  function TicketRequest(prompt: string): (j: Json)
    ensures Member(j, "title") == Some(JStr(TicketTitle(prompt)))
    ensures Member(j, "body") == Some(JStr(prompt)) && Member(j, "priority") == Some(JStr("medium"))
  {
    JObj(map["title" := JStr(TicketTitle(prompt)), "body" := JStr(prompt), "priority" := JStr("medium")])
  }

  /** The search input the agent sends is accepted whenever the prompt is not blank. */
  lemma SearchRequestConforms(prompt: string)
    ensures Conforms(Registry.SearchDbSchema, SearchRequest(prompt)) <==> !AllSpace(prompt)
  {
    SearchTextConforms(ExtractQuery(prompt));
  }

  lemma SearchTextConforms(q: string)
    ensures Conforms(Registry.SearchDbSchema, JObj(map["q" := JStr(q), "limit" := JNum(5.0)])) <==> q != []
  {
    Registry.SearchDbInput(map["q" := JStr(q), "limit" := JNum(5.0)]);
    assert IsInteger(5.0);
  }

  /** The RAG input the agent sends is accepted exactly when its search text has at least 3 characters. */
  lemma RagRequestConforms(prompt: string)
    ensures Conforms(Registry.RagQuerySchema, RagRequest(prompt)) <==> |ExtractQuery(prompt)| >= 3
  {
    RagTextConforms(ExtractQuery(prompt));
  }

  lemma RagTextConforms(q: string)
    ensures Conforms(Registry.RagQuerySchema, JObj(map["query" := JStr(q), "topK" := JNum(3.0)])) <==> |q| >= 3
  {
    Registry.RagQueryInput(map["query" := JStr(q), "topK" := JNum(3.0)]);
    assert IsInteger(3.0);
  }

  /** The ticket input the agent sends is accepted exactly when the prompt has at least 10 characters. */
  lemma TicketRequestConforms(prompt: string)
    ensures Conforms(Registry.CreateTicketSchema, TicketRequest(prompt)) <==> |prompt| >= 10
  {
    Registry.CreateTicketInput(TicketRequest(prompt).members);
    TitleLength(prompt);
  }

  const AnswerHeading: string := "Answer (heuristic):"

  const AnswerLine: string := "Based on the retrieved context above, here is a concise answer:"

  /** One `- <context>` line per context, in order. */
  function Bullets(contexts: seq<string>): (lines: seq<string>)
    ensures |lines| == |contexts|
    ensures forall i :: 0 <= i < |contexts| ==> lines[i] == "- " + contexts[i]
  {
    seq(|contexts|, i requires 0 <= i < |contexts| => "- " + contexts[i])
  }

  /** The lines of the template answer, before they are joined. */
  function TemplateLines(prompt: string, contexts: seq<string>): (lines: seq<string>)
    ensures |lines| == |contexts| + 6
    ensures lines[0] == "User: " + prompt && lines[1] == "" && lines[2] == "Context:"
    ensures forall i :: 0 <= i < |contexts| ==> lines[3 + i] == "- " + contexts[i]
    ensures lines[|contexts| + 3..] == ["", AnswerHeading, AnswerLine]
  {
    var lines := ["User: " + prompt, "", "Context:"] + Bullets(contexts) + ["", AnswerHeading, AnswerLine];
    assert lines[|contexts| + 3..] == ["", AnswerHeading, AnswerLine];
    lines
  }

  /**
   * The template branch of `synthesizeFinal`: the lines pushed one by one,
   * then joined with newlines.
   */
  method SynthesizeTemplate(prompt: string, contexts: seq<string>) returns (answer: string)
    ensures answer == Join(TemplateLines(prompt, contexts), "\n")
  {
    var lines: seq<string> := [];
    lines := lines + ["User: " + prompt];
    lines := lines + [""];
    lines := lines + ["Context:"];
    for i := 0 to |contexts|
      invariant lines == ["User: " + prompt, "", "Context:"] + Bullets(contexts[..i])
    {
      assert Bullets(contexts[..i + 1]) == Bullets(contexts[..i]) + ["- " + contexts[i]];
      lines := lines + ["- " + contexts[i]];
    }
    assert contexts[..|contexts|] == contexts;
    lines := lines + [""];
    lines := lines + [AnswerHeading];
    lines := lines + [AnswerLine];
    assert lines == ["User: " + prompt, "", "Context:"] + Bullets(contexts) + ["", AnswerHeading, AnswerLine];
    answer := Join(lines, "\n");
  }

  /** The answer opens with the user's prompt. */
  lemma TemplateOpensWithPrompt(prompt: string, contexts: seq<string>)
    ensures StartsWith(Join(TemplateLines(prompt, contexts), "\n"), "User: " + prompt)
  {
    var lines := TemplateLines(prompt, contexts);
    JoinStartsWith(lines, "\n");
  }

  lemma JoinStartsWith(parts: seq<string>, sep: string)
    requires |parts| >= 2
    ensures StartsWith(Join(parts, sep), parts[0])
  {
    var j := Join(parts, sep);
    assert j == parts[0] + sep + Join(parts[1..], sep);
    assert j[..|parts[0]|] == parts[0];
  }

  /** The answer quotes every context, each on a line of its own. */
  lemma TemplateQuotes(prompt: string, contexts: seq<string>)
    ensures forall i :: 0 <= i < |contexts| ==> Contains(Join(TemplateLines(prompt, contexts), "\n"), contexts[i])
  {
    forall i | 0 <= i < |contexts| ensures Contains(Join(TemplateLines(prompt, contexts), "\n"), contexts[i]) {
      QuotesContextAt(prompt, contexts, i);
    }
  }

  lemma QuotesContextAt(prompt: string, contexts: seq<string>, i: nat)
    requires i < |contexts|
    ensures Contains(Join(TemplateLines(prompt, contexts), "\n"), contexts[i])
  {
    var lines := TemplateLines(prompt, contexts);
    QuotesContext(lines, contexts[i], 3 + i);
  }

  lemma QuotesContext(lines: seq<string>, c: string, k: nat)
    requires k < |lines| && lines[k] == "- " + c
    ensures Contains(Join(lines, "\n"), c)
  {
    JoinContains(lines, "\n", k);
    ContainsPart("- ", c, "");
    assert "- " + c + "" == lines[k];
    ContainsTrans(Join(lines, "\n"), lines[k], c);
  }
}
