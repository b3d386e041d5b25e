/** The acknowledgement rule of the G-code link (`execute_gcode` inside
    `move_cnc_head_gcode`): after each command the program reads reply lines
    until one is accepted. The device's replies are a finite sequence of lines;
    running out of lines before an accepted one is the failed read that stops
    the program. */
module Protocol {

  /** A reply line that ends the wait for a command: exactly "ok\r\n", or any
      line that begins with "ok:". */
  predicate Accepted(line: string)
  {
    line == "ok\r\n" || (|line| >= 3 && line[..3] == "ok:")
  }

  /** The outcome of waiting for acknowledgements: the lines still unread, or
      the replies ran out first. */
  datatype Wait = Acked(rest: seq<string>) | Exhausted

  /** The read loop for one command: every line up to and including the first
      accepted one is consumed. */
  function AwaitOk(replies: seq<string>): (w: Wait)
    ensures w.Acked? ==> |w.rest| < |replies|
  {
    if replies == [] then Exhausted
    else if Accepted(replies[0]) then Acked(replies[1..])
    else AwaitOk(replies[1..])
  }

  /** The read loop stops at the first accepted line and at no other: the
      replies run out exactly when no line is accepted, and otherwise what is
      left is the suffix after the first accepted line. */
  lemma {:induction false} AwaitOkMeaning(replies: seq<string>)
    ensures AwaitOk(replies).Exhausted? <==> forall i | 0 <= i < |replies| :: !Accepted(replies[i])
    ensures AwaitOk(replies).Acked? ==>
              exists k | 0 <= k < |replies| ::
                Accepted(replies[k]) && AwaitOk(replies).rest == replies[k + 1..] &&
                forall i | 0 <= i < k :: !Accepted(replies[i])
  {
    if replies != [] && !Accepted(replies[0]) {
      var tail := replies[1..];
      AwaitOkMeaning(tail);
      SkipFirst(replies);
    } else if replies != [] {
      assert Accepted(replies[0]);
    }
  }

  /** The step of AwaitOkMeaning past a line that is not accepted. */
  lemma SkipFirst(replies: seq<string>)
    requires replies != [] && !Accepted(replies[0])
    requires AwaitOk(replies[1..]).Exhausted? <==> forall i | 0 <= i < |replies[1..]| :: !Accepted(replies[1..][i])
    requires AwaitOk(replies[1..]).Acked? ==>
               exists k | 0 <= k < |replies[1..]| ::
                 Accepted(replies[1..][k]) && AwaitOk(replies[1..]).rest == replies[1..][k + 1..] &&
                 forall i | 0 <= i < k :: !Accepted(replies[1..][i])
    ensures AwaitOk(replies).Exhausted? <==> forall i | 0 <= i < |replies| :: !Accepted(replies[i])
    ensures AwaitOk(replies).Acked? ==>
              exists k | 0 <= k < |replies| ::
                Accepted(replies[k]) && AwaitOk(replies).rest == replies[k + 1..] &&
                forall i | 0 <= i < k :: !Accepted(replies[i])
  {
    var tail := replies[1..];
    assert forall i | 1 <= i < |replies| :: replies[i] == tail[i - 1];
    if AwaitOk(tail).Acked? {
      var k :| 0 <= k < |tail| && Accepted(tail[k]) && AwaitOk(tail).rest == tail[k + 1..] &&
               forall i | 0 <= i < k :: !Accepted(tail[i]);
      assert tail[k + 1..] == replies[k + 2..];
      assert Accepted(replies[k + 1]);
    }
  }

  /** Waiting for n commands in a row, one accepted line each. */
  function AwaitAcks(replies: seq<string>, n: nat): Wait
    decreases n
  {
    if n == 0 then Acked(replies)
    else
      match AwaitOk(replies)
      case Exhausted => Exhausted
      case Acked(rest) => AwaitAcks(rest, n - 1)
  }

  /** The replies left after n commands. In blind mode nothing is read. */
  function Await(blind: bool, replies: seq<string>, n: nat): Wait
  {
    if blind then Acked(replies) else AwaitAcks(replies, n)
  }

  /** One more read loop after a wait, unless the replies have already run out. */
  function Continue(w: Wait): Wait
  {
    match w
    case Exhausted => Exhausted
    case Acked(rest) => AwaitOk(rest)
  }

  /** Waiting for one more command continues from where the first n left off. */
  lemma {:induction false} AwaitAcksStep(replies: seq<string>, n: nat)
    decreases n
    ensures AwaitAcks(replies, n + 1) == Continue(AwaitAcks(replies, n))
  {
    if n > 0 {
      var w := AwaitOk(replies);
      if w.Acked? {
        AwaitAcksStep(w.rest, n - 1);
      }
    }
  }

  /** Once the replies have run out, waiting for more commands never recovers. */
  lemma {:induction false} ExhaustedStays(replies: seq<string>, n: nat, m: nat)
    decreases m
    requires n <= m && AwaitAcks(replies, n).Exhausted?
    ensures AwaitAcks(replies, m).Exhausted?
  {
    if n < m {
      ExhaustedStays(replies, n, m - 1);
      AwaitAcksStep(replies, m - 1);
    }
  }

  /** Each acknowledged command consumes at least one line. */
  lemma {:induction false} AwaitAcksConsumes(replies: seq<string>, n: nat)
    decreases n
    requires AwaitAcks(replies, n).Acked?
    ensures |AwaitAcks(replies, n).rest| + n <= |replies|
  {
    if n > 0 {
      AwaitAcksConsumes(AwaitOk(replies).rest, n - 1);
    }
  }

  /** The two accepted forms, and lines that are not accepted: a bare "ok" with
      a Unix line end, upper case, an error report, and a truncated line. */
  lemma AcceptedExamples()
    ensures Accepted("ok\r\n") && Accepted("ok:") && Accepted("ok: 3 left\r\n")
    ensures !Accepted("ok\n") && !Accepted("OK\r\n") && !Accepted("error: 2\r\n") && !Accepted("ok")
  {
    assert "ok: 3 left\r\n"[..3] == "ok:";
    assert "ok\n"[2] != "ok:"[2];
    assert "error: 2\r\n"[0] != 'o';
  }

  /** A device that answers "ok\n" never acknowledges: the program keeps reading. */
  lemma UnixLineEndNeverAcks(replies: seq<string>)
    requires forall i | 0 <= i < |replies| :: replies[i] == "ok\n"
    ensures AwaitOk(replies) == Exhausted
  {
    AcceptedExamples();
  }

  /** Noise before the acknowledgement is skipped: an echoed command and a
      status line, then "ok\r\n", then the reply to the next command. */
  lemma SkipsNoise(echo: string, status: string, next: string)
    requires |echo| > 0 && echo[0] == 'G'
    requires |status| > 0 && status[0] == '<'
    ensures AwaitOk([echo, status, "ok\r\n", next]) == Acked([next])
  {
    AcceptedExamples();
    assert |echo| >= 3 ==> echo[..3][0] == 'G';
    assert |status| >= 3 ==> status[..3][0] == '<';
    assert echo != "ok\r\n" && status != "ok\r\n";
    assert !Accepted(echo) && !Accepted(status);
    assert [echo, status, "ok\r\n", next][1..] == [status, "ok\r\n", next];
    assert [status, "ok\r\n", next][1..] == ["ok\r\n", next];
    assert ["ok\r\n", next][1..] == [next];
    assert AwaitOk(["ok\r\n", next]) == Acked([next]);
    assert AwaitOk([status, "ok\r\n", next]) == Acked([next]);
  }
}
