/** `Titles`: the title of a conversation, either derived from the first prompt (its first
    six words) or asked of the model and cleaned up. The model call is a parameter:
    `ask(request)` is the reply message it returns, or the text of the exception. */
module Titles {
  import opened Wrappers
  import opened Json
  import Text
  import Seqs

  const NEW_CHAT := "New Chat"
  const ELLIPSIS := "…"
  const MAX_TITLE_WORDS := 6
  const MAX_TITLE_CHARS := 60
  const TITLE_MAX_TOKENS := 16
  const TITLE_CONTEXT_MESSAGES := 4
  const TITLE_INSTRUCTION :=
    "Generate a concise title (<= 6 words) for this conversation. Return title only."

  /** `prompt.strip().replace("\n", " ")`. */
  function Normalised(prompt: string): (p: string)
    ensures p == [] <==> Text.IsBlank(prompt)
    ensures p != [] ==> !Text.IsSpace(p[0])
  {
    var s := Text.Strip(prompt);
    Text.ReplaceCharByCharLength(s, '\n', ' ');
    assert s != [] ==> Text.ReplaceChar(s, '\n', " ")[0] == s[0] by {
      if s != [] {
        Text.ReplaceCharByCharAt(s, '\n', ' ', 0);
      }
    }
    Text.ReplaceChar(s, '\n', " ")
  }

  /** `" ".join(words[:6])`: the first six words of the normalised prompt. */
  function LeadingWords(prompt: string): string {
    Text.Join(" ", Seqs.Take(Text.SplitWords(Normalised(prompt)), MAX_TITLE_WORDS))
  }

  /** `default_title_from_prompt` on a string prompt. */
  function DefaultTitle(prompt: string): (r: string)
    ensures Text.IsBlank(prompt) ==> r == NEW_CHAT
    ensures !Text.IsBlank(prompt) && |Text.SplitWords(Normalised(prompt))| > MAX_TITLE_WORDS ==>
      r == LeadingWords(prompt) + ELLIPSIS
    ensures !Text.IsBlank(prompt) && |Text.SplitWords(Normalised(prompt))| <= MAX_TITLE_WORDS ==>
      r == LeadingWords(prompt)
  {
    var p := Normalised(prompt);
    if p == [] then NEW_CHAT
    else
      var words := Text.SplitWords(p);
      var title := Text.Join(" ", Seqs.Take(words, MAX_TITLE_WORDS));
      if |words| > MAX_TITLE_WORDS then title + ELLIPSIS else title
  }

  /** `default_title_from_prompt(prompt)` for any value: `prompt or ""` turns every falsy
      value into the empty prompt, and a truthy non-string has no `strip`. */
  function DefaultTitleOf(prompt: Value): (r: Result<string>)
    ensures prompt.Str? ==> r == Ok(DefaultTitle(prompt.s))
    ensures !Truthy(prompt) && !prompt.Str? ==> r == Ok(NEW_CHAT)
    ensures r.Err? <==> Truthy(prompt) && !prompt.Str?
  {
    match prompt
    case Str(s) => Ok(DefaultTitle(s))
    case _ =>
      if Truthy(prompt) then Err("'" + TypeName(prompt) + "' object has no attribute 'strip'")
      else
        DefaultTitleEmpty();
        Ok(DefaultTitle(""))
  }

  /** The empty prompt is titled `New Chat`. */
  lemma DefaultTitleEmpty()
    ensures DefaultTitle("") == NEW_CHAT
  {
    assert Text.IsBlank("");
  }

  /** A non-blank prompt gives a non-empty title without newlines whose words are the
      prompt's first six words, followed by the ellipsis exactly when words were cut. */
  lemma DefaultTitleWords(prompt: string)
    requires !Text.IsBlank(prompt)
    ensures var words := Text.SplitWords(Normalised(prompt));
      var body := LeadingWords(prompt);
      words != []
      && Text.SplitWords(body) == Seqs.Take(words, MAX_TITLE_WORDS)
      && |Text.SplitWords(body)| == (if |words| < MAX_TITLE_WORDS then |words| else MAX_TITLE_WORDS)
      && '\n' !in DefaultTitle(prompt)
      && DefaultTitle(prompt) == body + (if |words| > MAX_TITLE_WORDS then ELLIPSIS else "")
  {
    var p := Normalised(prompt);
    var words := Text.SplitWords(p);
    assert words != [] by {
      assert Text.LStripSpace(p) == p;
    }
    var taken := Seqs.Take(words, MAX_TITLE_WORDS);
    assert forall k :: 0 <= k < |taken| ==> taken[k] == words[k];
    SplitWordsJoin(taken);
    Text.JoinedWordsHaveNoNewline(taken);
  }

  /** Prefixing a whitespace character changes no word. */
  lemma SplitWordsAfterSpace(c: char, s: string)
    requires Text.IsSpace(c)
    ensures Text.SplitWords([c] + s) == Text.SplitWords(s)
  {
    var t := [c] + s;
    assert Text.LStripSpace(t) == Text.LStripSpace(s) by {
      assert t[0] == c && t[1..] == s;
    }
    Text.SplitWordsSameStrip(t, s);
  }

  /** The first element of a join is its first part. */
  lemma JoinStartsWithFirst(sep: string, parts: seq<string>)
    requires parts != []
    ensures parts[0] <= Text.Join(sep, parts)
  {
  }

  /** A single word splits to itself. */
  lemma SplitWordsSingle(w: string)
    requires w != [] && Text.NoSpace(w)
    ensures Text.SplitWords(w) == [w]
  {
    assert Text.LStripSpace(w) == w;
    assert Text.FirstSpace(w) == |w|;
    assert w[..|w|] == w && w[|w|..] == [];
    assert Text.SplitWords([]) == [];
  }

  /** A word, a space and text starting with a word split to that word and the rest. */
  lemma SplitWordsCons(w: string, rest: string)
    requires w != [] && Text.NoSpace(w)
    requires rest != [] && !Text.IsSpace(rest[0])
    ensures Text.SplitWords(w + " " + rest) == [w] + Text.SplitWords(rest)
  {
    var j := w + " " + rest;
    assert j[0] == w[0];
    assert Text.LStripSpace(j) == j;
    assert j[|w|] == ' ';
    assert forall i :: 0 <= i < |w| ==> j[i] == w[i];
    assert Text.FirstSpace(j) == |w|;
    assert j[..|w|] == w;
    assert j[|w|..] == [' '] + rest;
    SplitWordsAfterSpace(' ', rest);
  }

  /** Splitting words joined by single spaces gives the words back. */
  lemma {:induction false} SplitWordsJoin(words: seq<string>)
    requires forall k :: 0 <= k < |words| ==> words[k] != [] && Text.NoSpace(words[k])
    ensures Text.SplitWords(Text.Join(" ", words)) == words
  {
    if words == [] {
    } else if |words| == 1 {
      SplitWordsSingle(words[0]);
    } else {
      var tail := words[1..];
      assert forall k :: 0 <= k < |tail| ==> tail[k] == words[k + 1];
      var rest := Text.Join(" ", tail);
      assert Text.Join(" ", words) == words[0] + " " + rest;
      JoinStartsWithFirst(" ", tail);
      assert tail[0] == words[1] && words[1] != [] && Text.NoSpace(words[1]);
      assert rest[0] == words[1][0];
      SplitWordsCons(words[0], rest);
      SplitWordsJoin(tail);
      assert words == [words[0]] + tail;
    }
  }

  /** The model's answer: a reply message with a `content`, read as `last.get("content") or ""`. */
  function ReplyText(last: Value): (r: Result<string>)
    ensures r.Ok? ==> last.Obj?
    ensures last.Obj? && GetOr(last.fields, "content", Null).Str? ==>
      r == Ok(GetOr(last.fields, "content", Null).s)
    ensures last.Obj? && !Truthy(GetOr(last.fields, "content", Null)) ==> r == Ok("")
  {
    if !last.Obj? then Err("'" + TypeName(last) + "' object has no attribute 'get'")
    else
      var c := GetOr(last.fields, "content", Null);
      if !Truthy(c) then Ok("")
      else if c.Str? then Ok(c.s)
      else Err("'" + TypeName(c) + "' object has no attribute 'strip'")
  }

  /** `.strip().strip('"').strip("'")`: the answer without surrounding whitespace, then
      without surrounding double quotes, then without surrounding single quotes. */
  function CleanTitle(s: string): (r: string)
    ensures |r| <= |s|
    ensures r != [] ==> r[0] != '\'' && r[|r| - 1] != '\''
  {
    Text.StripChars(Text.StripChars(Text.Strip(s), "\""), "'")
  }

  /** Characters that the clean-up removes from the ends. */
  predicate Plain(s: string) {
    s != [] && Text.Trimmed(s)
    && s[0] !in "\"'" && s[|s| - 1] !in "\"'"
  }

  /** A plain answer is kept as it is. */
  lemma CleanTitlePlain(s: string)
    requires Plain(s)
    ensures CleanTitle(s) == s
  {
    Text.StripTrimmed(s);
  }

  /** An answer in double quotes loses its quotes and nothing else. */
  lemma CleanTitleQuoted(t: string)
    requires Plain(t)
    ensures CleanTitle("\"" + t + "\"") == t
  {
    var q := "\"" + t + "\"";
    assert Text.Trimmed(q);
    Text.StripTrimmed(q);
    assert q[1..] == t + "\"";
    assert Text.LStripChars(q, "\"") == t + "\"";
    assert (t + "\"")[..|t|] == t;
    assert Text.RStripChars(t + "\"", "\"") == t;
  }

  /** What `generate_auto_title` sends: the endpoint, the instruction as a system message
      followed by the first four messages, and the token budget. */
  datatype TitleRequest = TitleRequest(endpoint: string, messages: seq<Value>, maxTokens: int)

  function Instruction(): Value {
    Obj([Field("role", Str("system")), Field("content", Str(TITLE_INSTRUCTION))])
  }

  function TitleRequestFor(endpoint: string, messages: seq<Value>): (q: TitleRequest)
    ensures q.endpoint == endpoint && q.maxTokens == TITLE_MAX_TOKENS
    ensures 1 <= |q.messages| <= 1 + TITLE_CONTEXT_MESSAGES
    ensures q.messages[0] == Instruction()
    ensures q.messages[1..] <= messages
    ensures |messages| >= TITLE_CONTEXT_MESSAGES ==> |q.messages| == 1 + TITLE_CONTEXT_MESSAGES
    ensures |messages| < TITLE_CONTEXT_MESSAGES ==> q.messages[1..] == messages
  {
    var ctx := Seqs.Take(messages, TITLE_CONTEXT_MESSAGES);
    assert ([Instruction()] + ctx)[1..] == ctx;
    TitleRequest(endpoint, [Instruction()] + ctx, TITLE_MAX_TOKENS)
  }

  /** The cleaned answer of the model, empty when the call or the reading of its reply
      failed. */
  function AnswerTitle(answer: Result<Value>): (t: string)
    ensures answer.Err? ==> t == ""
    ensures answer.Ok? && ReplyText(answer.value).Ok? ==> t == CleanTitle(ReplyText(answer.value).value)
    ensures answer.Ok? && ReplyText(answer.value).Err? ==> t == ""
  {
    match answer
    case Err(_) => ""
    case Ok(last) =>
      match ReplyText(last)
      case Err(_) => ""
      case Ok(text) => CleanTitle(text)
  }

  /** `generate_auto_title`: the cleaned answer cut to 60 characters, or the fallback cut
      to 60 characters when the call fails or the cleaned answer is empty. */
  function AutoTitle(endpoint: string, messages: seq<Value>, fallback: string,
                     ask: TitleRequest -> Result<Value>): (r: string)
    ensures |r| <= MAX_TITLE_CHARS
    ensures var title := AnswerTitle(ask(TitleRequestFor(endpoint, messages)));
      (title != [] ==> r != [] && r <= title && (|title| <= MAX_TITLE_CHARS ==> r == title)
                       && (|title| > MAX_TITLE_CHARS ==> r == title[..MAX_TITLE_CHARS]))
      && (title == [] ==> r <= fallback && |r| == (if |fallback| < MAX_TITLE_CHARS then |fallback| else MAX_TITLE_CHARS))
  {
    var title := AnswerTitle(ask(TitleRequestFor(endpoint, messages)));
    if title != [] then Seqs.Take(title, MAX_TITLE_CHARS)
    else Seqs.Take(fallback, MAX_TITLE_CHARS)
  }

  /** A reply whose only field is its content reads as that content. */
  lemma ReplyOfContent(s: string)
    ensures ReplyText(Obj([Field("content", Str(s))])) == Ok(s)
  {
    Fields1(Field("content", Str(s)));
  }

  /** The title when the model replies with the content `s`. */
  lemma AutoTitleOfReply(endpoint: string, messages: seq<Value>, fallback: string,
                         ask: TitleRequest -> Result<Value>, s: string)
    requires ask(TitleRequestFor(endpoint, messages)) == Ok(Obj([Field("content", Str(s))]))
    ensures AutoTitle(endpoint, messages, fallback, ask)
      == Seqs.Take(if CleanTitle(s) != [] then CleanTitle(s) else fallback, MAX_TITLE_CHARS)
  {
    ReplyOfContent(s);
    assert AnswerTitle(ask(TitleRequestFor(endpoint, messages))) == CleanTitle(s);
  }

  /** A model answering `"<plain title>"` names the conversation with the unquoted title. */
  lemma AutoTitleUnquotes(endpoint: string, messages: seq<Value>, fallback: string,
                          ask: TitleRequest -> Result<Value>, t: string)
    requires Plain(t) && |t| <= MAX_TITLE_CHARS
    requires ask(TitleRequestFor(endpoint, messages))
      == Ok(Obj([Field("content", Str("\"" + t + "\""))]))
    ensures AutoTitle(endpoint, messages, fallback, ask) == t
  {
    CleanTitleQuoted(t);
    AutoTitleOfReply(endpoint, messages, fallback, ask, "\"" + t + "\"");
  }

  /** An answer that is only a pair of double quotes cleans to nothing. */
  lemma CleanTitleEmptyQuotes()
    ensures CleanTitle("\"\"") == ""
  {
    var s := "\"\"";
    assert Text.Strip(s) == s by {
      assert Text.Trimmed(s);
      Text.StripTrimmed(s);
    }
    assert Text.LStripChars(s, "\"") == [] by {
      assert s[0] in "\"" && s[1..][0] in "\"" && s[1..][1..] == [];
      assert Text.LStripChars(s[1..][1..], "\"") == [];
    }
    assert Text.StripChars(s, "\"") == [];
  }

  /** A model answering with an empty pair of quotes leaves the fallback title. */
  lemma AutoTitleEmptyQuotes(endpoint: string, messages: seq<Value>, fallback: string,
                             ask: TitleRequest -> Result<Value>)
    requires ask(TitleRequestFor(endpoint, messages)) == Ok(Obj([Field("content", Str("\"\""))]))
    ensures AutoTitle(endpoint, messages, fallback, ask) == Seqs.Take(fallback, MAX_TITLE_CHARS)
  {
    CleanTitleEmptyQuotes();
    AutoTitleOfReply(endpoint, messages, fallback, ask, "\"\"");
  }

  /** A failed call leaves the fallback title. */
  lemma AutoTitleFailedCall(endpoint: string, messages: seq<Value>, fallback: string,
                            ask: TitleRequest -> Result<Value>)
    requires ask(TitleRequestFor(endpoint, messages)).Err?
    ensures AutoTitle(endpoint, messages, fallback, ask) == Seqs.Take(fallback, MAX_TITLE_CHARS)
  {
  }
}
