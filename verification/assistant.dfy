/** The voice assistant's two listening loops: waiting for the wake word, then
    handling commands until an exit phrase is heard. The listener's results and
    everything else the outside world answers (the clock, the generator, the
    desktop) arrive as input sequences; effects leave as `Action` values. */
module Assistant {
  import opened Common
  import opened Text
  import opened TimeFormat
  import opened Dispatch
  import opened Tabs

  /** What one listening attempt produced. */
  datatype Recognition = Transcript(text: string) | ListenTimeout | RecognitionError

  /** The world's answers during one pass of the command loop: what was heard,
      the wall clock, what the generator returns for the utterance, and how the
      desktop reacts if a video tab has to be closed. */
  datatype Turn = Turn(heard: Recognition, clock: Clock, reply: Outcome, desktop: Desktop)

  const NoSpeech := "none"
  const WakeWord := "jarvis"
  const WakeReply := "Yes sir? How can I help?"
  const Greeting := "System initialized and ready"

  /** `listen_command`: the lower-cased transcript, or the sentinel "none" when
      nothing usable was heard. */
  function Listen(r: Recognition): (q: string)
    ensures forall i :: 0 <= i < |q| ==> !('A' <= q[i] <= 'Z')
    ensures !r.Transcript? ==> q == NoSpeech
    ensures r.Transcript? ==> q == Lower(r.text)
  {
    match r
    case Transcript(t) => Lower(t)
    case _ => NoSpeech
  }

  predicate IsWake(r: Recognition)
  {
    r.Transcript? && Contains(Lower(r.text), WakeWord)
  }

  predicate WakeHeard(heard: seq<Recognition>)
  {
    exists i :: 0 <= i < |heard| && IsWake(heard[i])
  }

  /** `listen_for_wake_word`: stays idle through timeouts, recognition errors
      and transcripts without the wake word, and becomes active at the first
      transcript that contains it. `at` is the position of that transcript. */
  method WaitForWakeWord(heard: seq<Recognition>) returns (woke: bool, at: nat, acts: seq<Action>)
    ensures woke <==> WakeHeard(heard)
    ensures woke ==> at < |heard| && IsWake(heard[at])
    ensures forall j :: 0 <= j < at && j < |heard| ==> !IsWake(heard[j])
    ensures acts == if woke then [Say(WakeReply)] else []
  {
    at := 0;
    while at < |heard|
      invariant at <= |heard|
      invariant forall j :: 0 <= j < at ==> !IsWake(heard[j])
    {
      match heard[at] {
        case Transcript(t) =>
          if Contains(Lower(t), WakeWord) {
            return true, at, [Say(WakeReply)];
          }
        case ListenTimeout =>
        case RecognitionError =>
      }
      at := at + 1;
    }
    return false, at, [];
  }

  /** The effects of one utterance (already known not to be "none"). A close
      that calls for the video tab runs the tab-closing routine right after. */
  function Respond(q: string, t: Turn): (acts: seq<Action>)
    ensures acts != []
    ensures Classify(q).Query? ==> acts[0] == Ask(q)
  {
    match Classify(q)
    case Quit => [Say(Farewell), Exit]
    case Open(target) => OpenSoftware(target)
    case Close(target) =>
      var plan := CloseSoftware(target);
      if CloseVideoTab in plan then plan + TabClosing(t.desktop).actions else plan
    case TellTime => [Say(TimeAnnouncement(t.clock))]
    case Query(text) => [Ask(text), Say(ReplyText(t.reply))]
  }

  predicate IsExitTurn(t: Turn)
  {
    Listen(t.heard) != NoSpeech && IsExitPhrase(Listen(t.heard))
  }

  /** Everything the command loop does over a run of turns: "none" turns are
      skipped, and the loop ends with the first exit phrase. */
  function Session(turns: seq<Turn>): seq<Action>
    decreases |turns|
  {
    if turns == [] then []
    else
      var q := Listen(turns[0].heard);
      if q == NoSpeech then Session(turns[1..])
      else if IsExitPhrase(q) then Respond(q, turns[0])
      else Respond(q, turns[0]) + Session(turns[1..])
  }

  /** One pass of the loop body for a heard utterance. */
  method HandleCommand(q: string, t: Turn) returns (acts: seq<Action>)
    ensures acts == Respond(q, t)
  {
    match Classify(q) {
      case Quit => acts := [Say(Farewell), Exit];
      case Open(target) => acts := OpenSoftware(target);
      case Close(target) =>
        acts := CloseSoftware(target);
        if CloseVideoTab in acts {
          var _, closing := CloseYoutubeTab(t.desktop);
          acts := acts + closing;
        }
      case TellTime => acts := [Say(TimeAnnouncement(t.clock))];
      case Query(text) => acts := [Ask(text), Say(ReplyText(t.reply))];
    }
  }

  /** `command_mode`: listen, skip "none", dispatch, and stop for good at the
      first exit phrase. Running out of turns stands for the loop still waiting. */
  method CommandMode(turns: seq<Turn>) returns (acts: seq<Action>, exited: bool)
    ensures acts == Session(turns)
    ensures exited <==> exists i :: 0 <= i < |turns| && IsExitTurn(turns[i])
  {
    acts := [];
    exited := false;
    var i := 0;
    while i < |turns| && !exited
      invariant 0 <= i <= |turns|
      invariant !exited ==> acts + Session(turns[i..]) == Session(turns)
      invariant exited ==> acts == Session(turns)
      invariant exited <==> exists j :: 0 <= j < i && IsExitTurn(turns[j])
    {
      assert turns[i..][1..] == turns[i + 1..];
      var q := Listen(turns[i].heard);
      if q != NoSpeech {
        var step := HandleCommand(q, turns[i]);
        acts := acts + step;
        exited := IsExitPhrase(q);
      }
      i := i + 1;
    }
  }

  /** The script's entry point: greet, wait for the wake word, then run the
      command loop. */
  method Run(wake: seq<Recognition>, turns: seq<Turn>) returns (acts: seq<Action>)
    ensures acts == [Say(Greeting)] + (if WakeHeard(wake) then [Say(WakeReply)] + Session(turns) else [])
  {
    acts := [Say(Greeting)];
    var woke, _, ack := WaitForWakeWord(wake);
    acts := acts + ack;
    if woke {
      var session, _ := CommandMode(turns);
      acts := acts + session;
    }
  }

  /** Opening, closing and telling the time neither exit nor ask the generator. */
  lemma RespondIsLocal(q: string, t: Turn)
    requires !Classify(q).Quit? && !Classify(q).Query?
    ensures Local(Respond(q, t))
  {
    match Classify(q)
    case Open(target) =>
      OpenIsLocal(target);
      assert Respond(q, t) == OpenSoftware(target);
    case Close(target) =>
      CloseSoftwareResolution(target);
      TabClosingIsLocal(t.desktop);
      var plan := CloseSoftware(target);
      if CloseVideoTab in plan {
        assert Respond(q, t) == plan + TabClosing(t.desktop).actions;
      } else {
        assert Respond(q, t) == plan;
      }
    case TellTime =>
  }

  lemma LocalExcludes(acts: seq<Action>)
    requires Local(acts)
    ensures Exit !in acts
    ensures forall x :: Ask(x) !in acts
  {
  }

  /** An utterance causes `Exit` exactly when it holds an exit phrase, and then
      the farewell is all it does. */
  lemma RespondExits(q: string, t: Turn)
    ensures Exit in Respond(q, t) <==> IsExitPhrase(q)
    ensures IsExitPhrase(q) ==> Respond(q, t) == [Say(Farewell), Exit]
  {
    ClassifyPriority(q);
    match Classify(q)
    case Quit =>
    case Query(text) =>
      assert Respond(q, t) == [Ask(text), Say(ReplyText(t.reply))];
    case _ =>
      RespondIsLocal(q, t);
      LocalExcludes(Respond(q, t));
  }

  lemma {:induction false} SessionWithoutExit(turns: seq<Turn>)
    requires forall i :: 0 <= i < |turns| ==> !IsExitTurn(turns[i])
    ensures Exit !in Session(turns)
    decreases |turns|
  {
    if turns != [] {
      RespondExits(Listen(turns[0].heard), turns[0]);
      assert forall i :: 0 <= i < |turns[1..]| ==> turns[1..][i] == turns[i + 1];
      SessionWithoutExit(turns[1..]);
    }
  }

  lemma {:induction false} SessionEndsWithExit(turns: seq<Turn>, k: nat)
    requires k < |turns| && IsExitTurn(turns[k])
    ensures EndsWithFarewell(Session(turns))
    decreases k
  {
    var q := Listen(turns[0].heard);
    if q == NoSpeech {
      SessionEndsWithExit(turns[1..], k - 1);
    } else if !IsExitPhrase(q) {
      SessionEndsWithExit(turns[1..], k - 1);
      RespondExits(q, turns[0]);
      PrefixKeepsFarewellLast(Respond(q, turns[0]), Session(turns[1..]));
    } else {
      RespondExits(q, turns[0]);
    }
  }

  /** The last two effects are the farewell and `Exit`, and `Exit` occurs
      nowhere earlier. */
  predicate EndsWithFarewell(s: seq<Action>)
  {
    |s| >= 2 && s[|s| - 2..] == [Say(Farewell), Exit] && Exit !in s[..|s| - 1]
  }

  lemma PrefixKeepsFarewellLast(r: seq<Action>, s: seq<Action>)
    requires Exit !in r && EndsWithFarewell(s)
    ensures EndsWithFarewell(r + s)
  {
    assert (r + s)[..|r + s| - 1] == r + s[..|s| - 1];
    assert (r + s)[|r + s| - 2..] == s[|s| - 2..];
  }

  /** The session exits exactly when some turn holds an exit phrase; then its
      last two effects are the farewell and `Exit`, and `Exit` occurs nowhere
      before. */
  lemma SessionExit(turns: seq<Turn>)
    ensures Exit in Session(turns) <==> exists i :: 0 <= i < |turns| && IsExitTurn(turns[i])
    ensures Exit in Session(turns) ==> EndsWithFarewell(Session(turns))
  {
    if exists i :: 0 <= i < |turns| && IsExitTurn(turns[i]) {
      var i :| 0 <= i < |turns| && IsExitTurn(turns[i]);
      SessionExitAt(turns, i);
    } else {
      SessionWithoutExit(turns);
    }
  }

  lemma SessionExitAt(turns: seq<Turn>, k: nat)
    requires k < |turns| && IsExitTurn(turns[k])
    ensures Exit in Session(turns) && EndsWithFarewell(Session(turns))
  {
    SessionEndsWithExit(turns, k);
    FarewellContainsExit(Session(turns));
  }

  lemma FarewellContainsExit(s: seq<Action>)
    requires EndsWithFarewell(s)
    ensures Exit in s
  {
    assert s[|s| - 1] == s[|s| - 2..][1];
  }

  /** Nothing heard after the first exit phrase has any effect. */
  lemma {:induction false} SessionStopsAtExit(turns: seq<Turn>, k: nat)
    requires k < |turns| && IsExitTurn(turns[k])
    ensures Session(turns) == Session(turns[..k + 1])
    decreases k
  {
    var q := Listen(turns[0].heard);
    if k > 0 && !(q != NoSpeech && IsExitPhrase(q)) {
      assert turns[1..][..k] == turns[..k + 1][1..];
      SessionStopsAtExit(turns[1..], k - 1);
    }
  }

  /** A turn where nothing usable was heard has no effect, wherever it falls. */
  lemma {:induction false} NoSpeechIsInert(before: seq<Turn>, t: Turn, after: seq<Turn>)
    requires Listen(t.heard) == NoSpeech
    ensures Session(before + [t] + after) == Session(before + after)
    decreases |before|
  {
    if before == [] {
      assert (before + [t] + after)[1..] == after;
      assert before + after == after;
    } else {
      assert (before + [t] + after)[1..] == before[1..] + [t] + after;
      assert (before + after)[1..] == before[1..] + after;
      NoSpeechIsInert(before[1..], t, after);
    }
  }

  /** Only an utterance with none of the keywords is handed to the generator,
      and it is handed over whole. */
  lemma OnlyPlainQueriesAsk(q: string, t: Turn, x: string)
    requires Ask(x) in Respond(q, t)
    ensures x == q
    ensures !IsExitPhrase(q) && !Contains(q, "open") && !Contains(q, "close") && !Contains(q, "time")
  {
    ClassifyPriority(q);
    match Classify(q)
    case Quit =>
    case Query(text) =>
      assert Respond(q, t) == [Ask(text), Say(ReplyText(t.reply))];
    case _ =>
      RespondIsLocal(q, t);
      LocalExcludes(Respond(q, t));
  }

  /** A time request is answered with the clock in `%I:%M %p` form, read back
      exactly, and without consulting the generator. */
  lemma TimeIsSpoken(q: string, t: Turn)
    requires Classify(q) == TellTime
    ensures |Respond(q, t)| == 1 && Respond(q, t)[0].Say?
    ensures var s := Respond(q, t)[0].text; |s| >= 12 && Parse(s[12..]) == Some(t.clock)
  {
  }
}
