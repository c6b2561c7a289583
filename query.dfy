/**
 * The query form of app.tsx: `submit` trims the text of the input, appends
 * a `;` when the trimmed text does not already end with one, hands the
 * statement to the engine's `exec`, and shows either the timing line with
 * the rendered result sets or the text of the error the engine threw.
 * `isRunning` is raised for the call and lowered again in `finally`.
 */
module Query {
  /**
   * The code points `String.prototype.trim` removes: the ECMAScript
   * WhiteSpace set (TAB, VT, FF, SP, NBSP, ZWNBSP and the Zs category) and
   * the LineTerminator set (LF, CR, LS, PS).
   */
  predicate IsWhiteSpace(c: char)
  {
    c == '\t' || c == '\n' || c == '\U{000B}' || c == '\U{000C}' || c == '\r' || c == ' ' ||
    c == '\U{00A0}' || c == '\U{1680}' || ('\U{2000}' <= c <= '\U{200A}') ||
    c == '\U{2028}' || c == '\U{2029}' || c == '\U{202F}' || c == '\U{205F}' ||
    c == '\U{3000}' || c == '\U{FEFF}'
  }

  predicate AllWhiteSpace(s: string)
  {
    forall i :: 0 <= i < |s| ==> IsWhiteSpace(s[i])
  }

  /** Two runs of white space make one. */
  lemma AllWhiteSpaceConcat(a: string, b: string)
    requires AllWhiteSpace(a) && AllWhiteSpace(b)
    ensures AllWhiteSpace(a + b)
  {
    forall i | 0 <= i < |a + b|
      ensures IsWhiteSpace((a + b)[i])
    {
      if i < |a| {
        assert (a + b)[i] == a[i];
      } else {
        assert (a + b)[i] == b[i - |a|];
      }
    }
  }

  /** Neither end of `s` is white space: what trimming leaves behind. */
  predicate IsTrimmed(s: string)
  {
    s == [] || (!IsWhiteSpace(s[0]) && !IsWhiteSpace(s[|s| - 1]))
  }

  /** Drops the white space at the start of `s`. */
  function TrimStart(s: string): (r: string)
    ensures |r| <= |s|
  {
    if s != [] && IsWhiteSpace(s[0]) then TrimStart(s[1..]) else s
  }

  /** Drops the white space at the end of `s`. */
  function TrimEnd(s: string): (r: string)
    ensures |r| <= |s|
  {
    if s != [] && IsWhiteSpace(s[|s| - 1]) then TrimEnd(s[..|s| - 1]) else s
  }

  /** `String.prototype.trim`. */
  function Trim(s: string): (r: string)
    ensures |r| <= |s|
  {
    TrimEnd(TrimStart(s))
  }

  /** `TrimStart` removes a run of white space and stops at the first other character. */
  lemma {:induction false} TrimStartSplits(s: string) returns (lead: string)
    ensures s == lead + TrimStart(s) && AllWhiteSpace(lead)
    ensures TrimStart(s) == [] || !IsWhiteSpace(TrimStart(s)[0])
  {
    if s != [] && IsWhiteSpace(s[0]) {
      var rest := TrimStartSplits(s[1..]);
      lead := [s[0]] + rest;
      AllWhiteSpaceConcat([s[0]], rest);
      assert s == [s[0]] + s[1..];
    } else {
      lead := [];
    }
  }

  /** `TrimEnd` removes a run of white space and stops at the last other character. */
  lemma {:induction false} TrimEndSplits(s: string) returns (trail: string)
    ensures s == TrimEnd(s) + trail && AllWhiteSpace(trail)
    ensures TrimEnd(s) == [] || !IsWhiteSpace(TrimEnd(s)[|TrimEnd(s)| - 1])
  {
    if s != [] && IsWhiteSpace(s[|s| - 1]) {
      var rest := TrimEndSplits(s[..|s| - 1]);
      trail := rest + [s[|s| - 1]];
      AllWhiteSpaceConcat(rest, [s[|s| - 1]]);
      assert s == s[..|s| - 1] + [s[|s| - 1]];
    } else {
      trail := [];
    }
  }

  /**
   * `Trim(s)` is what is left of `s` between white space in front and white
   * space behind, and it neither starts nor ends with white space.
   */
  lemma TrimSplits(s: string) returns (pre: string, post: string)
    ensures s == pre + Trim(s) + post
    ensures AllWhiteSpace(pre) && AllWhiteSpace(post)
    ensures IsTrimmed(Trim(s))
  {
    var t := TrimStart(s);
    pre := TrimStartSplits(s);
    post := TrimEndSplits(t);
    var r := TrimEnd(t);
    if r != [] {
      assert r[0] == t[0];
    }
  }

  /** White space in front of text that starts with something else is all `TrimStart` removes. */
  lemma {:induction false} TrimStartSkips(lead: string, rest: string)
    requires AllWhiteSpace(lead)
    requires rest == [] || !IsWhiteSpace(rest[0])
    ensures TrimStart(lead + rest) == rest
  {
    if lead != [] {
      assert (lead + rest)[1..] == lead[1..] + rest;
      TrimStartSkips(lead[1..], rest);
    } else {
      assert lead + rest == rest;
    }
  }

  /** White space after text that ends with something else is all `TrimEnd` removes. */
  lemma {:induction false} TrimEndSkips(init: string, trail: string)
    requires AllWhiteSpace(trail)
    requires init == [] || !IsWhiteSpace(init[|init| - 1])
    ensures TrimEnd(init + trail) == init
  {
    if trail != [] {
      assert (init + trail)[..|init + trail| - 1] == init + trail[..|trail| - 1];
      TrimEndSkips(init, trail[..|trail| - 1]);
    } else {
      assert init + trail == init;
    }
  }

  /**
   * Trimming has only one possible outcome: whenever `s` is white space,
   * then trimmed text, then white space, `Trim(s)` is that text.
   */
  lemma TrimUnique(s: string, pre: string, mid: string, post: string)
    requires s == pre + mid + post
    requires AllWhiteSpace(pre) && AllWhiteSpace(post) && IsTrimmed(mid)
    ensures Trim(s) == mid
  {
    assert s == pre + (mid + post);
    if mid != [] {
      assert (mid + post)[0] == mid[0];
      TrimStartSkips(pre, mid + post);
      TrimEndSkips(mid, post);
    } else {
      assert pre + (mid + post) == (pre + post) + [];
      AllWhiteSpaceConcat(pre, post);
      TrimStartSkips(pre + post, []);
    }
  }

  /** Trimming twice trims nothing more. */
  lemma TrimIdempotent(s: string)
    ensures Trim(Trim(s)) == Trim(s)
  {
    var _, _ := TrimSplits(s);
    TrimUnique(Trim(s), [], Trim(s), []);
  }

  /** Moving the brackets of a five-part concatenation. */
  lemma Regroup<T>(a: seq<T>, b: seq<T>, c: seq<T>, d: seq<T>, e: seq<T>)
    ensures a + (b + c + d) + e == (a + b) + c + (d + e)
  {
  }

  /** White space around the text does not change what trimming gives. */
  lemma TrimIgnoresSurroundingWhiteSpace(lead: string, s: string, trail: string)
    requires AllWhiteSpace(lead) && AllWhiteSpace(trail)
    ensures Trim(lead + s + trail) == Trim(s)
  {
    var pre, post := TrimSplits(s);
    Regroup(lead, pre, Trim(s), post, trail);
    AllWhiteSpaceConcat(lead, pre);
    AllWhiteSpaceConcat(post, trail);
    TrimUnique(lead + s + trail, lead + pre, Trim(s), post + trail);
  }

  predicate EndsWithSemicolon(s: string)
  {
    s != [] && s[|s| - 1] == ';'
  }

  /**
   * The statement `submit` hands to the engine: the trimmed input, with a
   * `;` appended unless it already ends with one.
   */
  function Normalize(input: string): (sql: string)
    ensures EndsWithSemicolon(sql)
    ensures EndsWithSemicolon(Trim(input)) ==> sql == Trim(input)
    ensures !EndsWithSemicolon(Trim(input)) ==> sql == Trim(input) + ";"
  {
    var sql := Trim(input);
    if EndsWithSemicolon(sql) then sql else sql + ";"
  }

  /** The normalised statement is itself trimmed. */
  lemma NormalizeIsTrimmed(input: string)
    ensures IsTrimmed(Normalize(input))
  {
    var t := Trim(input);
    var _, _ := TrimSplits(input);
    if !EndsWithSemicolon(t) && t != [] {
      assert (t + ";")[0] == t[0];
    }
  }

  /** Normalising an already normalised statement changes nothing. */
  lemma NormalizeIdempotent(input: string)
    ensures Normalize(Normalize(input)) == Normalize(input)
  {
    var n := Normalize(input);
    NormalizeIsTrimmed(input);
    TrimUnique(n, [], n, []);
  }

  /** White space typed around a query does not change the statement that runs. */
  lemma NormalizeIgnoresSurroundingWhiteSpace(lead: string, s: string, trail: string)
    requires AllWhiteSpace(lead) && AllWhiteSpace(trail)
    ensures Normalize(lead + s + trail) == Normalize(s)
  {
    TrimIgnoresSurroundingWhiteSpace(lead, s, trail);
  }

  /** Examples: padded input gains the terminator, a terminated one is kept, blank input becomes `;`. */
  lemma NormalizeExamples()
    ensures Normalize(" select 1 ") == "select 1;"
    ensures Normalize("select 1;") == "select 1;"
    ensures Normalize("\t\n") == ";"
  {
    TrimUnique(" select 1 ", " ", "select 1", " ");
    TrimUnique("select 1;", "", "select 1;", "");
    TrimUnique("\t\n", "\t\n", "", "");
  }

  /**
   * What the engine's `exec` does with a statement: the rendered result
   * sets, or `String(e)` of what it threw (for an `Error`, `"Error: "`
   * followed by its message).
   */
  datatype ExecOutcome = Rows(rendered: string) | Threw(text: string)

  /** The text `result` starts with. */
  const InitialResult: string := "enter a query above\U{2026}"

  /** The text shown after a statement ran. */
  function SuccessText(elapsedMs: string, rendered: string): string
  {
    "executed in " + elapsedMs + "ms\n" + rendered
  }

  /** The state of the query form: whether a statement is running and the text shown under it. */
  class Form {
    var isRunning: bool
    var result: string

    constructor ()
      ensures !isRunning && result == InitialResult
    {
      isRunning := false;
      result := InitialResult;
    }

    /**
     * `submit`: run the normalised input through `exec`. A statement that
     * runs shows the timing line and its result sets; one that throws shows
     * the error text; either way the form is no longer running.
     */
    method Submit(input: string, exec: string -> ExecOutcome, elapsedMs: string)
      modifies this
      ensures !isRunning
      ensures exec(Normalize(input)).Rows? ==>
                result == SuccessText(elapsedMs, exec(Normalize(input)).rendered)
      ensures exec(Normalize(input)).Threw? ==> result == exec(Normalize(input)).text
    {
      isRunning := true;
      var sql := Normalize(input);
      var outcome := exec(sql);
      match outcome {
        case Rows(rendered) =>
          result := SuccessText(elapsedMs, rendered);
        case Threw(text) =>
          result := text;
      }
      isRunning := false;
    }
  }
}
