/**
 Scripted upstreams (app.py): what the account behind one attempt of a stream may do.  `C` is the
 type of a tool-call entry.
 */
module Upstream {
  import opened Texts

  /** One parsed upstream line.  An empty text, or no calls, stands for an absent field. */
  datatype Line<C> =
    | Idle                      // keepalive tick of the line reader
    | Unparsed                  // a line that is not a data chunk
    | Chunk(content: Text, reasoning: Text, calls: seq<C>, finish: Text)
    | DoneMark                  // "data: [DONE]"

  /** A line, and whether the client is found disconnected when it arrives. */
  datatype LineEvent<C> = LineEvent(gone: bool, line: Line<C>)

  /** What one account's upstream does. */
  datatype Attempt<C> =
    | NoConnection                                        // raises before any response
    | Status(code: nat)                                   // an HTTP status of 400 or more
    | Sse(lines: seq<LineEvent<C>>, raises: bool)         // a stream, perhaps cut by an exception
    | RawBody(text: Text)                                 // one body that is not JSON
    | JsonBody(content: Text, reasoning: Text, calls: seq<C>, finish: Text)
    | BrokenBody                                          // reading the body raises

  /** `_retryable_status`. */
  predicate Retryable(code: nat) { code in {401, 403, 429, 500, 502, 503, 504} }

  /** Whether an attempt gets an HTTP 200. */
  predicate Answers<C>(a: Attempt<C>) { !a.NoConnection? && !a.Status? }

  /** The finish reason for a client: tools sent are always named, and no answer goes without a reason. */
  function ReasonFor(finish: Text, tools: bool): Text {
    var plain := finish == [] || finish == T("stop") || (tools && finish == T("end_turn"));
    if !plain then finish else if tools then T("tool_calls") else T("stop")
  }

  /** The lines up to `[DONE]`. */
  function Live<C>(lines: seq<LineEvent<C>>): seq<LineEvent<C>> {
    if lines == [] || lines[0].line.DoneMark? then [] else [lines[0]] + Live(lines[1..])
  }

  predicate SeesDone<C>(lines: seq<LineEvent<C>>) {
    exists i :: 0 <= i < |lines| && lines[i].line.DoneMark?
  }

  /** The client is there at every line. */
  ghost predicate Steady<C>(a: Attempt<C>) {
    a.Sse? ==> forall i :: 0 <= i < |a.lines| ==> !a.lines[i].gone
  }

  lemma {:induction false} LiveSteady<C>(lines: seq<LineEvent<C>>)
    requires Steady(Sse(lines, false))
    ensures forall i :: 0 <= i < |Live(lines)| ==> !Live(lines)[i].gone
  {
    if lines != [] && !lines[0].line.DoneMark? {
      assert lines[1..] == Sse(lines[1..], false).lines;
      assert Steady(Sse(lines[1..], false));
      LiveSteady(lines[1..]);
    }
  }

  ghost predicate AllSteady<C>(chain: seq<Attempt<C>>) {
    forall i :: 0 <= i < |chain| ==> Steady(chain[i])
  }

  function Copies(i: nat, n: nat): (r: seq<nat>)
    ensures |r| == n && forall k :: 0 <= k < n ==> r[k] == i
  {
    if n == 0 then [] else Copies(i, n - 1) + [i]
  }

  /** The last finish reason that some lines give. */
  function LastFinish<C>(lines: seq<LineEvent<C>>): Text {
    if lines == [] then []
    else
      var l := lines[|lines| - 1].line;
      if l.Chunk? && l.finish != [] then l.finish else LastFinish(lines[..|lines| - 1])
  }

  /** The finish reason that upstream gives. */
  function UpstreamFinish<C>(a: Attempt<C>): Text {
    match a
    case Sse(lines, _) => LastFinish(Live(lines))
    case JsonBody(_, _, _, finish) => finish
    case _ => []
  }
}
