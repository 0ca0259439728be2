/**
 * The documentation generator's JSON-RPC client: the framing of the
 * server's standard output into lines, the hand-over of each answer to the
 * request waiting for it, and the numbering of requests.
 */
module McpClient {
  import opened Wrappers

  /** `text.split('\n')`: the pieces between newlines, never none. */
  function SplitLines(s: string): (r: seq<string>)
    ensures |r| >= 1
    ensures forall k :: 0 <= k < |r| ==> '\n' !in r[k]
    decreases |s|
  {
    if s == [] then [""]
    else if s[0] == '\n' then [""] + SplitLines(s[1..])
    else var rest := SplitLines(s[1..]); [[s[0]] + rest[0]] + rest[1..]
  }

  /** `pieces.join('\n')` */
  function JoinLines(pieces: seq<string>): string
    requires |pieces| >= 1
    decreases |pieces|
  {
    if |pieces| == 1 then pieces[0] else pieces[0] + "\n" + JoinLines(pieces[1..])
  }

  /** Splitting loses nothing: joining the pieces back gives the text. */
  lemma {:induction false} SplitThenJoin(s: string)
    ensures JoinLines(SplitLines(s)) == s
    decreases |s|
  {
    if s != [] {
      var rest := SplitLines(s[1..]);
      SplitThenJoin(s[1..]);
      if s[0] == '\n' {
        assert ([""] + rest)[1..] == rest;
      } else if |rest| == 1 {
        assert s == [s[0]] + s[1..];
      } else {
        assert ([[s[0]] + rest[0]] + rest[1..])[1..] == rest[1..];
        assert s == [s[0]] + s[1..];
      }
    }
  }

  lemma {:induction false} SplitSingleLine(a: string)
    requires '\n' !in a
    ensures SplitLines(a) == [a]
    decreases |a|
  {
    if a != [] {
      SplitSingleLine(a[1..]);
      assert a == [a[0]] + a[1..];
    }
  }

  lemma {:induction false} SplitFirstLine(a: string, t: string)
    requires '\n' !in a
    ensures SplitLines(a + "\n" + t) == [a] + SplitLines(t)
    decreases |a|
  {
    if a == [] {
      assert (a + "\n" + t)[1..] == t;
    } else {
      assert (a + "\n" + t)[1..] == a[1..] + "\n" + t;
      SplitFirstLine(a[1..], t);
      assert a == [a[0]] + a[1..];
    }
  }

  /** Lines without newlines come back unchanged from a join and a split. */
  lemma {:induction false} JoinThenSplit(pieces: seq<string>)
    requires |pieces| >= 1
    requires forall k :: 0 <= k < |pieces| ==> '\n' !in pieces[k]
    ensures SplitLines(JoinLines(pieces)) == pieces
    decreases |pieces|
  {
    if |pieces| == 1 {
      SplitSingleLine(pieces[0]);
    } else {
      JoinThenSplit(pieces[1..]);
      SplitFirstLine(pieces[0], JoinLines(pieces[1..]));
    }
  }

  lemma {:induction false} JoinLinesSnoc(pieces: seq<string>)
    requires |pieces| >= 2
    ensures JoinLines(pieces) == JoinLines(pieces[..|pieces| - 1]) + "\n" + pieces[|pieces| - 1]
    decreases |pieces|
  {
    if |pieces| > 2 {
      JoinLinesSnoc(pieces[1..]);
      assert pieces[1..][..|pieces| - 2] == pieces[..|pieces| - 1][1..];
    }
  }

  /**
   * What `processBuffer` keeps in the buffer is exactly the text after the
   * last newline (all of it when there is none), and the lines it hands on
   * are everything before that newline.
   */
  lemma BufferKeepsTextAfterLastNewline(s: string)
    ensures var pieces := SplitLines(s);
            var rest := pieces[|pieces| - 1];
            && '\n' !in rest
            && ('\n' !in s ==> pieces == [s])
            && ('\n' in s ==> |pieces| >= 2 && s == JoinLines(pieces[..|pieces| - 1]) + "\n" + rest)
  {
    var pieces := SplitLines(s);
    SplitThenJoin(s);
    if '\n' !in s {
      SplitSingleLine(s);
    } else {
      JoinLinesSnoc(pieces);
    }
  }

  /** JavaScript white space and line terminators, which `trim()` removes. */
  predicate IsJsSpace(c: char) {
    || c in {'\t', '\n', '\U{000B}', '\U{000C}', '\r', ' ', '\U{00A0}', '\U{1680}',
             '\U{2028}', '\U{2029}', '\U{202F}', '\U{205F}', '\U{3000}', '\U{FEFF}'}
    || '\U{2000}' <= c <= '\U{200A}'
  }

  /** `line.trim()` is the empty string. */
  predicate IsBlank(line: string) {
    forall k :: 0 <= k < |line| ==> IsJsSpace(line[k])
  }

  /** A line handed to the callback of the request with this id. */
  datatype Answer = Answer(id: int, line: string)

  /** The ids still waiting for an answer, and the answers delivered so far. */
  datatype Pending = Pending(waiting: set<int>, answered: seq<Answer>)

  /**
   * One line of `processBuffer`: a non-blank line that parses as a message
   * whose id is waiting has that id removed from the waiting requests, then
   * goes to its callback; any other line changes nothing. `parse` gives the
   * id of the message a line parses to, None when parsing throws.
   */
  function DispatchLine(st: Pending, line: string, parse: string -> Option<int>): Pending {
    if !IsBlank(line) && parse(line).Some? && parse(line).value in st.waiting then
      Pending(st.waiting - {parse(line).value}, st.answered + [Answer(parse(line).value, line)])
    else st
  }

  /** The lines handled one after the other, in order. */
  function DispatchLines(st: Pending, lines: seq<string>, parse: string -> Option<int>): (r: Pending)
    ensures r.waiting <= st.waiting
    ensures |st.answered| <= |r.answered| && r.answered[..|st.answered|] == st.answered
    decreases |lines|
  {
    if lines == [] then st
    else DispatchLine(DispatchLines(st, lines[..|lines| - 1], parse), lines[|lines| - 1], parse)
  }

  /** The ids of the messages the non-blank lines parse to. */
  function ParsedIds(lines: seq<string>, parse: string -> Option<int>): set<int> {
    set k | 0 <= k < |lines| && !IsBlank(lines[k]) && parse(lines[k]).Some? :: parse(lines[k]).value
  }

  function Ids(answers: seq<Answer>): set<int> {
    set k | 0 <= k < |answers| :: answers[k].id
  }

  lemma ParsedIdsSnoc(lines: seq<string>, parse: string -> Option<int>)
    requires lines != []
    ensures var line := lines[|lines| - 1];
            ParsedIds(lines, parse) ==
              ParsedIds(lines[..|lines| - 1], parse) + (if !IsBlank(line) && parse(line).Some? then {parse(line).value} else {})
  {
    var init := lines[..|lines| - 1];
    assert forall k :: 0 <= k < |init| ==> init[k] == lines[k];
  }

  /** The requests left waiting are exactly the waiting ones that no non-blank line answers. */
  lemma {:induction false} DispatchLeavesUnanswered(st: Pending, lines: seq<string>, parse: string -> Option<int>)
    ensures DispatchLines(st, lines, parse).waiting == st.waiting - ParsedIds(lines, parse)
    decreases |lines|
  {
    if lines != [] {
      DispatchLeavesUnanswered(st, lines[..|lines| - 1], parse);
      ParsedIdsSnoc(lines, parse);
    }
  }

  /** Each answer given on the way from `st` to `r` went to a request that was waiting and waits no more. */
  predicate AnswersWereWaiting(st: Pending, r: Pending) {
    forall k :: |st.answered| <= k < |r.answered| ==> r.answered[k].id in st.waiting && r.answered[k].id !in r.waiting
  }

  /** Each of those answers came from a non-blank line that parses to its id. */
  predicate AnswersCameFromLines(st: Pending, r: Pending, parse: string -> Option<int>) {
    forall k :: |st.answered| <= k < |r.answered| ==>
      !IsBlank(r.answered[k].line) && parse(r.answered[k].line) == Some(r.answered[k].id)
  }

  /** No two of those answers went to the same request. */
  predicate AnswersDistinct(st: Pending, r: Pending) {
    forall a, b :: |st.answered| <= a < b < |r.answered| ==> r.answered[a].id != r.answered[b].id
  }

  /**
   * Every request is answered at most once: the new answers carry distinct
   * ids that were waiting and no longer are, each from a non-blank line that
   * parses to its id.
   */
  lemma {:induction false} DispatchAnswersEachOnce(st: Pending, lines: seq<string>, parse: string -> Option<int>)
    ensures AnswersWereWaiting(st, DispatchLines(st, lines, parse))
    ensures AnswersCameFromLines(st, DispatchLines(st, lines, parse), parse)
    ensures AnswersDistinct(st, DispatchLines(st, lines, parse))
    decreases |lines|
  {
    if lines != [] {
      var line := lines[|lines| - 1];
      var mid := DispatchLines(st, lines[..|lines| - 1], parse);
      DispatchAnswersEachOnce(st, lines[..|lines| - 1], parse);
      var r := DispatchLines(st, lines, parse);
      assert r == DispatchLine(mid, line, parse);
      if !IsBlank(line) && parse(line).Some? && parse(line).value in mid.waiting {
        var id := parse(line).value;
        assert r.answered == mid.answered + [Answer(id, line)];
        forall k | |st.answered| <= k < |mid.answered| ensures r.answered[k] == mid.answered[k] && mid.answered[k].id != id {
        }
      }
    }
  }

  /**
   * The bookkeeping of requests numbered below `next`: only those wait, an
   * answered request waits no more, and no request is answered twice.
   */
  predicate Accounted(next: int, st: Pending) {
    && (forall id :: id in st.waiting ==> 0 <= id < next)
    && (forall k :: 0 <= k < |st.answered| ==> 0 <= st.answered[k].id < next && st.answered[k].id !in st.waiting)
    && (forall a, b :: 0 <= a < b < |st.answered| ==> st.answered[a].id != st.answered[b].id)
  }

  /** Handling lines keeps that bookkeeping, whatever the lines say. */
  lemma DispatchKeepsAccounts(next: int, st: Pending, lines: seq<string>, parse: string -> Option<int>)
    requires Accounted(next, st)
    ensures Accounted(next, DispatchLines(st, lines, parse))
  {
    DispatchAnswersEachOnce(st, lines, parse);
  }

  /** Together with the requests left waiting, the new answers account for every request that was waiting. */
  lemma {:induction false} DispatchAccountsForWaiting(st: Pending, lines: seq<string>, parse: string -> Option<int>)
    ensures var r := DispatchLines(st, lines, parse);
            r.waiting + Ids(r.answered[|st.answered|..]) == st.waiting
    decreases |lines|
  {
    if lines != [] {
      var line := lines[|lines| - 1];
      var mid := DispatchLines(st, lines[..|lines| - 1], parse);
      DispatchAccountsForWaiting(st, lines[..|lines| - 1], parse);
      if !IsBlank(line) && parse(line).Some? && parse(line).value in mid.waiting {
        var r := DispatchLines(st, lines, parse);
        var before := mid.answered[|st.answered|..];
        var after := before + [Answer(parse(line).value, line)];
        assert r.answered[|st.answered|..] == after;
        assert Ids(after) == Ids(before) + {parse(line).value} by {
          assert forall k :: 0 <= k < |before| ==> after[k] == before[k];
          assert after[|before|].id == parse(line).value;
        }
      }
    }
  }

  /** The message written for a request: `{ jsonrpc: '2.0', id, method, params }`. */
  datatype Request = Request(id: int, name: string, params: string)

  /**
   * `MCPClient`: the unparsed tail of the server's output, the next request
   * id, the requests waiting for an answer, and, as logs, the requests
   * written to the server and the answers handed to their callbacks.
   */
  class Client {
    var buffer: string
    var requestId: int
    var pending: set<int>
    var sent: seq<Request>
    var answered: seq<Answer>

    /**
     * Requests are numbered 0, 1, 2, ... in the order they are written;
     * only written requests wait, and an answered request waits no more and
     * is answered only once.
     */
    ghost predicate Valid()
      reads this
    {
      && requestId == |sent|
      && (forall k :: 0 <= k < |sent| ==> sent[k].id == k)
      && Accounted(requestId, Pending(pending, answered))
    }

    constructor()
      ensures Valid()
      ensures buffer == "" && requestId == 0 && pending == {} && sent == [] && answered == []
    {
      buffer := "";
      requestId := 0;
      pending := {};
      sent := [];
      answered := [];
    }

    /**
     * `sendRequest`: takes the next id, registers it as waiting and writes
     * the request, with `{}` for absent parameters. The id is one no earlier
     * request had.
     */
    method SendRequest(name: string, params: Option<string>) returns (id: int)
      requires Valid()
      modifies this`requestId, this`pending, this`sent
      ensures Valid()
      ensures id == old(requestId) && requestId == old(requestId) + 1
      ensures pending == old(pending) + {id} && id !in old(pending)
      ensures sent == old(sent) + [Request(id, name, params.GetOr("{}"))]
      ensures forall k :: 0 <= k < |answered| ==> answered[k].id != id
    {
      id := requestId;
      requestId := requestId + 1;
      pending := pending + {id};
      sent := sent + [Request(id, name, params.GetOr("{}"))];
    }

    /** The timeout of a request: if it still waits it waits no more and is rejected. */
    method Expire(id: int) returns (timedOut: bool)
      requires Valid()
      modifies this`pending
      ensures Valid()
      ensures timedOut <==> id in old(pending)
      ensures pending == old(pending) - {id}
    {
      if id in pending {
        pending := pending - {id};
        timedOut := true;
      } else {
        timedOut := false;
      }
    }

    /**
     * `processBuffer`: the text after the last newline stays in the buffer
     * and every complete line before it is handled, in order.
     */
    method ProcessBuffer(parse: string -> Option<int>)
      requires Valid()
      modifies this`buffer, this`pending, this`answered
      ensures Valid()
      ensures var pieces := SplitLines(old(buffer));
              && buffer == pieces[|pieces| - 1]
              && Pending(pending, answered) ==
                 DispatchLines(Pending(old(pending), old(answered)), pieces[..|pieces| - 1], parse)
    {
      var pieces := SplitLines(buffer);
      var lines := pieces[..|pieces| - 1];
      buffer := pieces[|pieces| - 1];
      ghost var st := Pending(pending, answered);
      var i := 0;
      while i < |lines|
        invariant 0 <= i <= |lines|
        invariant buffer == pieces[|pieces| - 1]
        invariant Pending(pending, answered) == DispatchLines(st, lines[..i], parse)
      {
        var line := lines[i];
        if !IsBlank(line) {
          var id := parse(line);
          if id.Some? && id.value in pending {
            pending := pending - {id.value};
            answered := answered + [Answer(id.value, line)];
          }
        }
        assert lines[..i + 1][..i] == lines[..i];
        i := i + 1;
      }
      assert lines[..|lines|] == lines;
      DispatchKeepsAccounts(requestId, st, lines, parse);
    }

    /** The handler of the server's output: append the data, then process the buffer. */
    method OnData(data: string, parse: string -> Option<int>)
      requires Valid()
      modifies this`buffer, this`pending, this`answered
      ensures Valid()
      ensures var pieces := SplitLines(old(buffer) + data);
              && buffer == pieces[|pieces| - 1]
              && Pending(pending, answered) ==
                 DispatchLines(Pending(old(pending), old(answered)), pieces[..|pieces| - 1], parse)
    {
      buffer := buffer + data;
      ProcessBuffer(parse);
    }
  }
}
