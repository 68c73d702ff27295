/** The string logic of agent-builder.tool.ts: the agent specification and
    its echo, the camel-case export name, the numbered capability list of
    the system prompt, the generated file's name, and the first-match table
    that suggests tools for a domain. */
module AgentBuilder {
  import opened Common

  // ------------------------------------------------------ specifications

  /** An agent specification as the tools receive it, defaults applied. */
  datatype AgentSpec = AgentSpec(
    name: string,
    displayName: string,
    goal: string,
    capabilities: seq<string>,
    domain: string,
    modelProvider: string,
    modelName: string,
    includeWorkflow: bool,
    includeEvals: bool)

  /** A specification as the caller sends it: the last four fields may be
      left out. */
  datatype SpecInput = SpecInput(
    name: string,
    displayName: string,
    goal: string,
    capabilities: seq<string>,
    domain: string,
    modelProvider: Option<string>,
    modelName: Option<string>,
    includeWorkflow: Option<bool>,
    includeEvals: Option<bool>)

  function OrElse<T>(o: Option<T>, default: T): T
  {
    match o
    case Some(v) => v
    case None => default
  }

  /** The schema's defaults: provider "openai", model "gpt-4o", neither a
      workflow nor evals; every given field is kept. */
  function WithDefaults(input: SpecInput): (s: AgentSpec)
    ensures s.name == input.name && s.displayName == input.displayName && s.goal == input.goal
    ensures s.capabilities == input.capabilities && s.domain == input.domain
    ensures s.modelProvider == (if input.modelProvider.Some? then input.modelProvider.value else "openai")
    ensures s.modelName == (if input.modelName.Some? then input.modelName.value else "gpt-4o")
    ensures s.includeWorkflow <==> input.includeWorkflow == Some(true)
    ensures s.includeEvals <==> input.includeEvals == Some(true)
  {
    AgentSpec(input.name, input.displayName, input.goal, input.capabilities, input.domain,
              OrElse(input.modelProvider, "openai"), OrElse(input.modelName, "gpt-4o"),
              OrElse(input.includeWorkflow, false), OrElse(input.includeEvals, false))
  }

  datatype Collected = Collected(success: bool, specs: AgentSpec, message: string)

  function CollectedMessage(displayName: string): string
  {
    "Agent specifications collected successfully for '" + displayName + "'"
  }

  /** collectAgentSpecsTool: succeeds and hands the specification back
      unchanged, naming the agent in the message. */
  function CollectAgentSpecs(specs: AgentSpec): (r: Collected)
    ensures r.success && r.specs == specs
    ensures Contains(r.message, specs.displayName)
  {
    var m := CollectedMessage(specs.displayName);
    ContainsMiddle("Agent specifications collected successfully for '", specs.displayName, "'");
    Collected(true, specs, m)
  }

  // ----------------------------------------------------------- camel case

  /** `\s` in a JavaScript regular expression. */
  predicate IsJsSpace(c: char)
  {
    || c == ' ' || c == '\t' || c == '\n' || c == '\r' || c == '\U{B}' || c == '\U{C}'
    || c == '\U{A0}' || c == '\U{1680}' || ('\U{2000}' <= c <= '\U{200A}')
    || c == '\U{2028}' || c == '\U{2029}' || c == '\U{202F}' || c == '\U{205F}'
    || c == '\U{3000}' || c == '\U{FEFF}'
  }

  /** A character of the class `[-_\s]`. */
  predicate IsSeparator(c: char)
  {
    c == '-' || c == '_' || IsJsSpace(c)
  }

  predicate SepFree(w: string)
  {
    forall i :: 0 <= i < |w| ==> !IsSeparator(w[i])
  }

  /** The string after its leading run of separators. */
  function DropSeps(s: string): (r: string)
    ensures |r| <= |s| && r == s[|s| - |r|..]
    ensures r == [] || !IsSeparator(r[0])
    ensures s != [] && IsSeparator(s[0]) ==> |r| < |s|
    decreases |s|
  {
    if s != [] && IsSeparator(s[0]) then DropSeps(s[1..]) else s
  }

  /** `s.split(/[-_\s]+/)`: the pieces between runs of separators; a
      leading (trailing) run gives an empty first (last) piece. */
  function Tokens(s: string): (r: seq<string>)
    ensures |r| >= 1
    decreases |s|
  {
    if s == [] then [""]
    else if IsSeparator(s[0]) then [""] + Tokens(DropSeps(s))
    else
      var rest := Tokens(s[1..]);
      [[s[0]] + rest[0]] + rest[1..]
  }

  /** The characters of `s` that are not separators, in order. */
  function RemoveSeps(s: string): string
    decreases |s|
  {
    if s == [] then ""
    else if IsSeparator(s[0]) then RemoveSeps(s[1..])
    else [s[0]] + RemoveSeps(s[1..])
  }

  /** `words.join('')`. */
  function Concat(words: seq<string>): string
    decreases |words|
  {
    if words == [] then "" else words[0] + Concat(words[1..])
  }

  /** A later piece: first letter upper-cased, the rest lower-cased. */
  function CapWord(w: string): string
  {
    if w == [] then "" else [UpperChar(w[0])] + Lower(w[1..])
  }

  function CapAll(words: seq<string>): string
    decreases |words|
  {
    if words == [] then "" else CapWord(words[0]) + CapAll(words[1..])
  }

  /** The first piece lower-cased, every later piece capitalised, joined. */
  function Camel(words: seq<string>): string
    requires |words| >= 1
  {
    Lower(words[0]) + CapAll(words[1..])
  }

  /** toCamelCase. */
  function ToCamelCase(s: string): string
  {
    Camel(Tokens(s))
  }

  lemma {:induction false} DropSepsKeepsLetters(s: string)
    ensures RemoveSeps(DropSeps(s)) == RemoveSeps(s)
    decreases |s|
  {
    if s != [] && IsSeparator(s[0]) {
      DropSepsKeepsLetters(s[1..]);
    }
  }

  lemma ConcatCons(w: string, words: seq<string>)
    ensures Concat([w] + words) == w + Concat(words)
  {
    assert ([w] + words)[1..] == words;
  }

  /** The pieces, glued back together, are the non-separator characters. */
  lemma {:induction false} TokensConcat(s: string)
    ensures Concat(Tokens(s)) == RemoveSeps(s)
    decreases |s|
  {
    if s == [] {
    } else if IsSeparator(s[0]) {
      TokensConcat(DropSeps(s));
      DropSepsKeepsLetters(s);
      DropSepsKeepsLetters(s[1..]);
      ConcatCons("", Tokens(DropSeps(s)));
    } else {
      var rest := Tokens(s[1..]);
      TokensConcat(s[1..]);
      ConcatCons([s[0]] + rest[0], rest[1..]);
      ConcatCons(rest[0], rest[1..]);
      assert [rest[0]] + rest[1..] == rest;
    }
  }

  /** No piece holds a separator. */
  lemma {:induction false} TokensSepFree(s: string)
    ensures forall k :: 0 <= k < |Tokens(s)| ==> SepFree(Tokens(s)[k])
    decreases |s|
  {
    if s == [] {
    } else if IsSeparator(s[0]) {
      TokensSepFree(DropSeps(s));
    } else {
      TokensSepFree(s[1..]);
      var rest := Tokens(s[1..]);
      assert SepFree([s[0]] + rest[0]) by {
        assert SepFree(rest[0]);
      }
    }
  }

  lemma CapWordFacts(w: string)
    ensures |CapWord(w)| == |w|
    ensures Lower(CapWord(w)) == Lower(w)
    ensures SepFree(w) ==> SepFree(CapWord(w))
  {
    if w != [] {
      LowerAppend([UpperChar(w[0])], Lower(w[1..]));
      LowerLower(w[1..]);
      LowerAppend([w[0]], w[1..]);
      assert [w[0]] + w[1..] == w;
    }
  }

  lemma {:induction false} CapAllFacts(words: seq<string>)
    ensures |CapAll(words)| == |Concat(words)|
    ensures Lower(CapAll(words)) == Lower(Concat(words))
    ensures (forall k :: 0 <= k < |words| ==> SepFree(words[k])) ==> SepFree(CapAll(words))
    decreases |words|
  {
    if words != [] {
      CapAllFacts(words[1..]);
      CapWordFacts(words[0]);
      LowerAppend(CapWord(words[0]), CapAll(words[1..]));
      LowerAppend(words[0], Concat(words[1..]));
      if forall k :: 0 <= k < |words| ==> SepFree(words[k]) {
        assert SepFree(words[0]);
        assert forall k :: 0 <= k < |words[1..]| ==> SepFree(words[1..][k]) by {
          forall k | 0 <= k < |words[1..]| ensures SepFree(words[1..][k]) {
            assert words[1..][k] == words[k + 1];
          }
        }
      }
    }
  }

  lemma LowerPreservesSepFree(w: string)
    requires SepFree(w)
    ensures SepFree(Lower(w))
  {
  }

  /** toCamelCase leaves no '-', '_' or white space. */
  lemma CamelCaseHasNoSeparators(s: string)
    ensures SepFree(ToCamelCase(s))
  {
    var ws := Tokens(s);
    TokensSepFree(s);
    LowerPreservesSepFree(ws[0]);
    assert forall k :: 0 <= k < |ws[1..]| ==> SepFree(ws[1..][k]) by {
      forall k | 0 <= k < |ws[1..]| ensures SepFree(ws[1..][k]) {
        assert ws[1..][k] == ws[k + 1];
      }
    }
    CapAllFacts(ws[1..]);
  }

  /** toCamelCase keeps every non-separator character, in order, changing
      at most its case. */
  lemma CamelCaseKeepsLetters(s: string)
    ensures |ToCamelCase(s)| == |RemoveSeps(s)|
    ensures Lower(ToCamelCase(s)) == Lower(RemoveSeps(s))
  {
    var ws := Tokens(s);
    TokensConcat(s);
    CapAllFacts(ws[1..]);
    LowerAppend(Lower(ws[0]), CapAll(ws[1..]));
    LowerLower(ws[0]);
    ConcatCons(ws[0], ws[1..]);
    assert [ws[0]] + ws[1..] == ws;
    LowerAppend(ws[0], Concat(ws[1..]));
  }

  /** A separator-free string is a single piece. */
  lemma {:induction false} TokensOfWord(w: string)
    requires SepFree(w)
    ensures Tokens(w) == [w]
    decreases |w|
  {
    if w != [] {
      TokensOfWord(w[1..]);
      assert [w[0]] + w[1..] == w;
    }
  }

  lemma JoinStartsWithFirst(ws: seq<string>, sep: char)
    requires |ws| >= 1 && ws[0] != []
    ensures Join(ws, sep) != [] && Join(ws, sep)[0] == ws[0][0]
  {
  }

  /** A separator in front of a word opens an empty first piece. */
  lemma TokensAfterSep(sep: char, rest: string)
    requires IsSeparator(sep) && rest != [] && !IsSeparator(rest[0])
    ensures Tokens([sep] + rest) == [""] + Tokens(rest)
  {
    var s := [sep] + rest;
    assert s[1..] == rest;
    assert DropSeps(s) == DropSeps(rest);
  }

  /** A word, a separator and a string that starts a piece: the word is
      the first piece. */
  lemma {:induction false} TokensOfWordThenSep(w: string, sep: char, rest: string)
    requires SepFree(w) && IsSeparator(sep) && rest != [] && !IsSeparator(rest[0])
    ensures Tokens(w + [sep] + rest) == [w] + Tokens(rest)
    decreases |w|
  {
    if w == [] {
      assert w + [sep] + rest == [sep] + rest;
      TokensAfterSep(sep, rest);
    } else {
      var s := w + [sep] + rest;
      assert s[0] == w[0];
      assert s[1..] == w[1..] + [sep] + rest;
      TokensOfWordThenSep(w[1..], sep, rest);
      assert [w[0]] + w[1..] == w;
    }
  }

  /** Words joined by a separator split back into the words. */
  lemma {:induction false} TokensOfJoin(ws: seq<string>, sep: char)
    requires IsSeparator(sep) && |ws| >= 1
    requires forall k :: 0 <= k < |ws| ==> ws[k] != [] && SepFree(ws[k])
    ensures Tokens(Join(ws, sep)) == ws
    decreases |ws|
  {
    if |ws| == 1 {
      TokensOfWord(ws[0]);
    } else {
      var tail := ws[1..];
      assert forall k :: 0 <= k < |tail| ==> tail[k] == ws[k + 1];
      TokensOfJoin(tail, sep);
      JoinStartsWithFirst(tail, sep);
      assert SepFree(ws[0]);
      assert Join(ws, sep) == ws[0] + [sep] + Join(tail, sep);
      TokensOfWordThenSep(ws[0], sep, Join(tail, sep));
      assert [ws[0]] + tail == ws;
    }
  }

  /** Separated words become the first word lower-cased followed by every
      later word capitalised. */
  lemma CamelCaseOfWords(ws: seq<string>, sep: char)
    requires IsSeparator(sep) && |ws| >= 1
    requires forall k :: 0 <= k < |ws| ==> ws[k] != [] && SepFree(ws[k])
    ensures ToCamelCase(Join(ws, sep)) == Lower(ws[0]) + CapAll(ws[1..])
  {
    TokensOfJoin(ws, sep);
  }

  // ------------------------------------------------------- system prompt

  function CapabilityLine(i: nat, cap: string): string
  {
    NatToString(i + 1) + ". " + cap
  }

  /** `capabilities.map((cap, i) => `${i + 1}. ${cap}`)`. */
  function CapabilityLines(caps: seq<string>): (r: seq<string>)
    ensures |r| == |caps|
    ensures forall i :: 0 <= i < |r| ==> r[i] == CapabilityLine(i, caps[i])
  {
    seq(|caps|, i requires 0 <= i < |caps| => CapabilityLine(i, caps[i]))
  }

  /** The numbered lines joined by newlines. */
  function CapabilitiesSection(caps: seq<string>): string
  {
    Join(CapabilityLines(caps), '\n')
  }

  /** Line i starts with the numeral of i + 1, then ". ", then capability
      i. */
  lemma CapabilityLineParses(i: nat, cap: string)
    ensures var line := CapabilityLine(i, cap);
      var n := |NatToString(i + 1)|;
      && n + 2 <= |line|
      && AllDigits(line[..n])
      && ParseDigits(line[..n]) == i + 1
      && line[n..n + 2] == ". "
      && line[n + 2..] == cap
  {
    var line := CapabilityLine(i, cap);
    var d := NatToString(i + 1);
    assert line[..|d|] == d;
    ParseNatToString(i + 1);
  }

  /** With single-line capabilities, the section splits back into its
      numbered lines, one per capability, in input order. */
  lemma CapabilitiesSectionSplits(caps: seq<string>)
    requires |caps| >= 1
    requires forall k :: 0 <= k < |caps| ==> '\n' !in caps[k]
    ensures Split(CapabilitiesSection(caps), '\n') == CapabilityLines(caps)
  {
    var lines := CapabilityLines(caps);
    forall k | 0 <= k < |lines| ensures '\n' !in lines[k] {
      NonDigitNotIn(NatToString(k + 1), '\n');
      assert lines[k] == NatToString(k + 1) + ". " + caps[k];
    }
    SplitJoin(lines, '\n');
  }

  function PromptHead(specs: AgentSpec): string
  {
    "# Role\nYou are " + specs.displayName + ", a specialized AI agent focused on " + specs.domain
    + ".\n\n# Goal\n" + specs.goal + "\n\n# Core Capabilities\n"
  }

  function PromptTail(specs: AgentSpec): string
  {
    "\n\n# Guidelines\n- Stay focused on your domain of expertise: " + specs.domain
    + "\n- Always prioritize accuracy and helpfulness"
    + "\n- When uncertain, acknowledge limitations and suggest alternatives"
    + "\n- Use your capabilities to provide comprehensive solutions"
    + "\n\n# Response Style\n- Be concise but thorough\n- Provide actionable insights"
    + "\n- Use clear, professional language"
  }

  /** generateSystemPrompt. */
  function SystemPrompt(specs: AgentSpec): (r: string)
    ensures Contains(r, CapabilitiesSection(specs.capabilities))
  {
    ContainsMiddle(PromptHead(specs), CapabilitiesSection(specs.capabilities), PromptTail(specs));
    PromptHead(specs) + CapabilitiesSection(specs.capabilities) + PromptTail(specs)
  }

  // ------------------------------------------------------ suggested tools

  /** The tool families getSuggestedTools can suggest. */
  datatype ToolFamily = CustomerSupport | Finance | DataAnalysis | Coding | Email | General

  /** One branch of the table: it fires when the lower-cased domain holds
      one of `domainWords` or the lower-cased capabilities hold one of
      `capabilityWords`. */
  datatype Rule = Rule(domainWords: seq<string>, capabilityWords: seq<string>, family: ToolFamily)

  const Rules: seq<Rule> := [
    Rule(["customer", "support"], [], CustomerSupport),
    Rule(["financial", "finance"], [], Finance),
    Rule(["data"], ["analysis"], DataAnalysis),
    Rule(["code", "programming"], [], Coding),
    Rule(["email", "communication"], [], Email)]

  function AnyIncluded(text: string, words: seq<string>): (b: bool)
    ensures b <==> exists k :: 0 <= k < |words| && Contains(text, words[k])
    decreases |words|
  {
    if words == [] then false
    else Contains(text, words[0]) || AnyIncluded(text, words[1..])
  }

  predicate Fires(rule: Rule, domainLower: string, capsLower: string)
  {
    AnyIncluded(domainLower, rule.domainWords) || AnyIncluded(capsLower, rule.capabilityWords)
  }

  /** The family of the first rule from index `i` on that fires, or
      General when none does. */
  function FirstMatch(rules: seq<Rule>, i: nat, domainLower: string, capsLower: string): (f: ToolFamily)
    requires i <= |rules|
    ensures
      || (f == General && forall k :: i <= k < |rules| ==> !Fires(rules[k], domainLower, capsLower))
      || exists k: nat :: FirstFiring(rules, i, k, domainLower, capsLower) && rules[k].family == f
    decreases |rules| - i
  {
    if i == |rules| then General
    else if Fires(rules[i], domainLower, capsLower) then
      assert FirstFiring(rules, i, i, domainLower, capsLower);
      rules[i].family
    else
      var f := FirstMatch(rules, i + 1, domainLower, capsLower);
      assert forall k: nat :: FirstFiring(rules, i + 1, k, domainLower, capsLower) ==>
        FirstFiring(rules, i, k, domainLower, capsLower);
      f
  }

  /** Rule `k` fires and no rule from `i` up to it does. */
  predicate FirstFiring(rules: seq<Rule>, i: nat, k: nat, domainLower: string, capsLower: string)
  {
    && i <= k < |rules|
    && Fires(rules[k], domainLower, capsLower)
    && forall j :: i <= j < k ==> !Fires(rules[j], domainLower, capsLower)
  }

  /** The family getSuggestedTools picks for a domain and capabilities. */
  function SelectFamily(domain: string, capabilities: seq<string>): ToolFamily
  {
    FirstMatch(Rules, 0, Lower(domain), Lower(Join(capabilities, ' ')))
  }

  datatype SuggestedTools = SuggestedTools(imports: string, suggestions: seq<string>, toolsCode: string)

  const ImportsLine := "// import { createTool } from '@mastra/core';"
  const ToolsHead := "// tools: {\n  //   "
  const ToolsTail := "\n  // },"

  /** The position of a suggestion in its family's list. */
  datatype Nth = First | Second | Third

  function Suggestion(f: ToolFamily, n: Nth): string
  {
    match (f, n)
    case (CustomerSupport, First) => "Ticket creation and tracking"
    case (CustomerSupport, Second) => "Knowledge base search"
    case (CustomerSupport, Third) => "Sentiment analysis"
    case (Finance, First) => "Transaction analysis"
    case (Finance, Second) => "Budget calculations"
    case (Finance, Third) => "Market data retrieval"
    case (DataAnalysis, First) => "Data processing and transformation"
    case (DataAnalysis, Second) => "Statistical analysis"
    case (DataAnalysis, Third) => "Visualization generation"
    case (Coding, First) => "Code execution"
    case (Coding, Second) => "Syntax validation"
    case (Coding, Third) => "Documentation search"
    case (Email, First) => "Email sending"
    case (Email, Second) => "Template management"
    case (Email, Third) => "Contact lookup"
    case (General, First) => "Web search for information retrieval"
    case (General, Second) => "API integration for external data"
    case (General, Third) => "File processing (read/write/parse)"
  }

  function Suggestions(f: ToolFamily): seq<string>
  {
    [Suggestion(f, First), Suggestion(f, Second), Suggestion(f, Third)]
  }

  function ToolsLines(f: ToolFamily): string
  {
    match f
    case CustomerSupport =>
      "// ticketManager: createTicketTool(),\n  //   // knowledgeBaseSearch: createSearchTool(),"
    case Finance =>
      "// transactionAnalyzer: createTransactionTool(),\n  //   // budgetCalculator: createBudgetTool(),"
    case DataAnalysis => "// dataProcessor: createDataTool(),\n  //   // statsAnalyzer: createStatsTool(),"
    case Coding => "// codeExecutor: createCodeTool(),\n  //   // docSearch: createSearchTool(),"
    case Email => "// emailSender: createEmailTool(),\n  //   // contactLookup: createContactTool(),"
    case General => "// webSearch: createSearchTool(),\n  //   // fileProcessor: createFileTool(),"
  }

  /** The suggestions a family gets: three of them, and a commented-out
      `tools` block. */
  function ToolsFor(f: ToolFamily): (t: SuggestedTools)
    ensures |t.suggestions| == 3
    ensures t.imports == ImportsLine
    ensures IsPrefix(ToolsHead, t.toolsCode) && IsSuffix(ToolsTail, t.toolsCode)
  {
    var code := ToolsHead + ToolsLines(f) + ToolsTail;
    PrefixSuffixOfConcat(ToolsHead, ToolsLines(f), ToolsTail);
    SuggestedTools(ImportsLine, Suggestions(f), code)
  }

  /** Pushes the family's three suggestions and appends its tool lines. */
  method PushSuggestions(f: ToolFamily, suggestions: seq<string>, toolsCode: string)
    returns (suggestions': seq<string>, toolsCode': string)
    ensures suggestions' == suggestions + Suggestions(f)
    ensures toolsCode' == toolsCode + ToolsLines(f)
  {
    suggestions' := suggestions;
    suggestions' := suggestions' + [Suggestion(f, First)];
    suggestions' := suggestions' + [Suggestion(f, Second)];
    suggestions' := suggestions' + [Suggestion(f, Third)];
    toolsCode' := toolsCode + ToolsLines(f);
  }

  /** A rule testing the domain for two words fires when the domain holds
      either. */
  lemma FiresOnDomainWords(rule: Rule, w1: string, w2: string, d: string, c: string)
    requires rule.domainWords == [w1, w2] && rule.capabilityWords == []
    ensures Fires(rule, d, c) <==> Contains(d, w1) || Contains(d, w2)
  {
    assert rule.domainWords[0] == w1 && rule.domainWords[1] == w2;
  }

  /** The data rule fires on "data" in the domain or "analysis" in the
      capabilities. */
  lemma FiresOnDataRule(rule: Rule, w1: string, w2: string, d: string, c: string)
    requires rule.domainWords == [w1] && rule.capabilityWords == [w2]
    ensures Fires(rule, d, c) <==> Contains(d, w1) || Contains(c, w2)
  {
  }

  /** The rule table read rule by rule. */
  lemma FirstMatchOfRules(d: string, c: string)
    ensures FirstMatch(Rules, 0, d, c) ==
      if Fires(Rules[0], d, c) then CustomerSupport
      else if Fires(Rules[1], d, c) then Finance
      else if Fires(Rules[2], d, c) then DataAnalysis
      else if Fires(Rules[3], d, c) then Coding
      else if Fires(Rules[4], d, c) then Email
      else General
  {
    assert FirstMatch(Rules, 5, d, c) == General;
    assert FirstMatch(Rules, 4, d, c) == if Fires(Rules[4], d, c) then Email else General;
    assert FirstMatch(Rules, 3, d, c) == if Fires(Rules[3], d, c) then Coding else FirstMatch(Rules, 4, d, c);
    assert FirstMatch(Rules, 2, d, c) == if Fires(Rules[2], d, c) then DataAnalysis else FirstMatch(Rules, 3, d, c);
    assert FirstMatch(Rules, 1, d, c) == if Fires(Rules[1], d, c) then Finance else FirstMatch(Rules, 2, d, c);
  }

  /** The if-chain of getSuggestedTools: the first branch whose test
      passes picks the family. */
  method ChooseFamily(domainLower: string, capabilitiesStr: string) returns (f: ToolFamily)
    ensures f == FirstMatch(Rules, 0, domainLower, capabilitiesStr)
  {
    FirstMatchOfRules(domainLower, capabilitiesStr);
    FiresOnDomainWords(Rules[0], "customer", "support", domainLower, capabilitiesStr);
    FiresOnDomainWords(Rules[1], "financial", "finance", domainLower, capabilitiesStr);
    FiresOnDataRule(Rules[2], "data", "analysis", domainLower, capabilitiesStr);
    FiresOnDomainWords(Rules[3], "code", "programming", domainLower, capabilitiesStr);
    FiresOnDomainWords(Rules[4], "email", "communication", domainLower, capabilitiesStr);
    if Contains(domainLower, "customer") || Contains(domainLower, "support") {
      f := CustomerSupport;
    } else if Contains(domainLower, "financial") || Contains(domainLower, "finance") {
      f := Finance;
    } else if Contains(domainLower, "data") || Contains(capabilitiesStr, "analysis") {
      f := DataAnalysis;
    } else if Contains(domainLower, "code") || Contains(domainLower, "programming") {
      f := Coding;
    } else if Contains(domainLower, "email") || Contains(domainLower, "communication") {
      f := Email;
    } else {
      f := General;
    }
  }

  /** getSuggestedTools: start from the import line and the opening of the
      `tools` block, push the chosen family's suggestions and tool lines,
      close the block. */
  method GetSuggestedTools(domain: string, capabilities: seq<string>) returns (t: SuggestedTools)
    ensures t == ToolsFor(SelectFamily(domain, capabilities))
  {
    var domainLower := Lower(domain);
    var capabilitiesStr := Lower(Join(capabilities, ' '));
    var suggestions: seq<string> := [];
    var imports := ImportsLine;
    var toolsCode := ToolsHead;
    var f := ChooseFamily(domainLower, capabilitiesStr);
    suggestions, toolsCode := PushSuggestions(f, suggestions, toolsCode);
    assert suggestions == Suggestions(f);
    toolsCode := toolsCode + ToolsTail;
    t := SuggestedTools(imports, suggestions, toolsCode);
  }

  // ---------------------------------------------------------- agent file

  const AgentSuffix := ".agent.ts"

  /** The file the generated agent goes in: `${name}.agent.ts`. */
  function AgentFilename(name: string): (r: string)
    ensures IsSuffix(AgentSuffix, r) && r[..|r| - |AgentSuffix|] == name
  {
    var r := name + AgentSuffix;
    assert r[|r| - |AgentSuffix|..] == AgentSuffix;
    r
  }

  /** The agent name back from a file name, when it has the agent suffix. */
  function NameOfFile(filename: string): (r: Option<string>)
    ensures r.Some? <==> IsSuffix(AgentSuffix, filename)
  {
    if IsSuffix(AgentSuffix, filename) then Some(filename[..|filename| - |AgentSuffix|]) else None
  }

  /** Reading the name back from the file name gives the agent's name. */
  lemma FilenameRoundTrip(name: string)
    ensures NameOfFile(AgentFilename(name)) == Some(name)
  {
  }

  /** The generated source file, part by part: the tool imports, the doc
      comment (display name, goal, domain, suggestions), the export
      `<camelCase(name)>Agent`, the agent's name, instructions and model,
      and the suggested `tools` block. */
  datatype AgentCode = AgentCode(
    toolImports: string,
    displayName: string,
    goal: string,
    domain: string,
    suggestions: seq<string>,
    exportName: string,
    agentName: string,
    instructions: string,
    model: string,
    toolsCode: string)

  const AgentWord := "Agent"

  /** generateAgentCode, as its parts. */
  function AgentCodeFor(specs: AgentSpec, systemPrompt: string): (c: AgentCode)
    ensures IsSuffix(AgentWord, c.exportName)
    ensures SepFree(c.exportName[..|c.exportName| - |AgentWord|])
    ensures |c.suggestions| == 3
    ensures c.instructions == systemPrompt && c.agentName == specs.name
    ensures c.exportName == ToCamelCase(specs.name) + AgentWord
    ensures c.model == specs.modelProvider + "/" + specs.modelName
    ensures var tools := ToolsFor(SelectFamily(specs.domain, specs.capabilities));
      && c.toolImports == tools.imports
      && c.suggestions == tools.suggestions
      && c.toolsCode == tools.toolsCode
    ensures c.displayName == specs.displayName && c.goal == specs.goal && c.domain == specs.domain
  {
    var tools := ToolsFor(SelectFamily(specs.domain, specs.capabilities));
    var camel := ToCamelCase(specs.name);
    CamelCaseHasNoSeparators(specs.name);
    PrefixSuffixOfConcat(camel, "", AgentWord);
    assert camel + "" + AgentWord == camel + AgentWord;
    assert (camel + AgentWord)[..|camel|] == camel;
    AgentCode(tools.imports, specs.displayName, specs.goal, specs.domain, tools.suggestions,
              camel + AgentWord, specs.name, systemPrompt,
              specs.modelProvider + "/" + specs.modelName, tools.toolsCode)
  }

  function GeneratedHead(displayName: string): string
  {
    "Generated agent code for " + displayName + ". Save this to src/mastra/agents/"
  }

  datatype GeneratedFile = GeneratedFile(success: bool, code: AgentCode, filename: string, message: string)

  /** generateAgentFileTool: the system prompt, the code built from it, and
      the file name derived from the agent's name. */
  function GenerateAgentFile(specs: AgentSpec): (r: GeneratedFile)
    ensures r.success
    ensures NameOfFile(r.filename) == Some(specs.name)
    ensures r.code.instructions == SystemPrompt(specs)
    ensures Contains(r.code.instructions, CapabilitiesSection(specs.capabilities))
    ensures Contains(r.message, r.filename)
  {
    var prompt := SystemPrompt(specs);
    var filename := AgentFilename(specs.name);
    FilenameRoundTrip(specs.name);
    var head := GeneratedHead(specs.displayName);
    ContainsEnd(head, filename);
    GeneratedFile(true, AgentCodeFor(specs, prompt), filename, head + filename)
  }
}
