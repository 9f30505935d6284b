/** The ordered ffmpeg fallback that turns the download into 16 kHz mono 16-bit PCM WAV
    (endpoint.py:115-145). */
module Transcode {
  import opened Wrappers
  import opened PyValues

  /** The three conversion commands, by the container hint they pass to ffmpeg. */
  datatype Strategy = OggHint | AudioHint | NoHint

  /** The order in which the commands are tried. */
  const Strategies: seq<Strategy> := [OggHint, AudioHint, NoHint]

  /** The argument vector of one conversion command. */
  function Command(s: Strategy, input: string, output: string): (argv: seq<string>)
    ensures |argv| >= 11 && argv[..2] == ["ffmpeg", "-y"]
    ensures argv[|argv| - 9..] == ["-i", input, "-acodec", "pcm_s16le", "-ar", "16000", "-ac", "1", output]
    ensures s == NoHint <==> |argv| == 11
    ensures s != NoHint ==> |argv| == 13
    ensures s == OggHint ==> argv[2..4] == ["-f", "ogg"]
    ensures s == AudioHint ==> argv[2..4] == ["-f", "audio"]
  {
    var hint := match s
      case OggHint => ["-f", "ogg"]
      case AudioHint => ["-f", "audio"]
      case NoHint => [];
    ["ffmpeg", "-y"] + hint + ["-i", input, "-acodec", "pcm_s16le", "-ar", "16000", "-ac", "1", output]
  }

  /** What running one command did: subprocess.run raised, or ffmpeg exited with a return
      code, leaving a WAV file of the given size behind. */
  datatype Attempt = Raised(error: PyException) | Exited(returnCode: int, outputSize: nat)

  /** Only a zero return code sets `success`. */
  predicate Succeeded(a: Attempt) {
    a.Exited? && a.returnCode == 0
  }

  /** The error raised when no command returned 0. */
  const AllFailed: PyException := RuntimeError("All conversion attempts failed")

  /** The error raised when the command that returned 0 left an empty WAV file. */
  const EmptyWav: PyException := ValueError("Converted WAV file is empty")

  /** The position in ss of the first strategy whose command returns 0, or |ss| if none does. */
  function FirstSuccess(ss: seq<Strategy>, run: Strategy -> Attempt): (k: nat)
    ensures k <= |ss|
    ensures forall i :: 0 <= i < k ==> !Succeeded(run(ss[i]))
    ensures k < |ss| ==> Succeeded(run(ss[k]))
  {
    if ss == [] then 0
    else if Succeeded(run(ss[0])) then 0
    else 1 + FirstSuccess(ss[1..], run)
  }

  /** The strategies whose commands are run, in order: up to and including the first that
      returns 0, or all of them. */
  function Tried(run: Strategy -> Attempt): seq<Strategy> {
    var k := FirstSuccess(Strategies, run);
    if k < |Strategies| then Strategies[..k + 1] else Strategies
  }

  /** The outcome of conversion: the size of the WAV file, or the exception raised. */
  function Conversion(run: Strategy -> Attempt): Result<nat, PyException> {
    var k := FirstSuccess(Strategies, run);
    if k == |Strategies| then Failure(AllFailed)
    else if run(Strategies[k]).outputSize == 0 then Failure(EmptyWav)
    else Success(run(Strategies[k]).outputSize)
  }

  /** The conversion loop and the size check after it. */
  method Convert(run: Strategy -> Attempt) returns (ran: seq<Strategy>, wav: Result<nat, PyException>)
    ensures 1 <= |ran| <= |Strategies| && ran == Strategies[..|ran|]
    ensures forall i :: 0 <= i < |ran| - 1 ==> !Succeeded(run(ran[i]))
    ensures |ran| < |Strategies| ==> Succeeded(run(ran[|ran| - 1]))
    ensures wav.Success? ==> Succeeded(run(ran[|ran| - 1])) && wav.value > 0
    ensures ran == Tried(run) && wav == Conversion(run)
  {
    var success := false;
    var i := 0;
    ran := [];
    while i < |Strategies|
      invariant 0 <= i <= |Strategies|
      invariant ran == Strategies[..i]
      invariant !success
      invariant forall j :: 0 <= j < i ==> !Succeeded(run(Strategies[j]))
    {
      var attempt := run(Strategies[i]);
      ran := ran + [Strategies[i]];
      i := i + 1;
      if attempt.Exited? && attempt.returnCode == 0 {
        success := true;
        break;
      }
    }
    if !success {
      wav := Failure(AllFailed);
      return;
    }
    var wavSize := run(Strategies[i - 1]).outputSize;
    if wavSize == 0 {
      wav := Failure(EmptyWav);
    } else {
      wav := Success(wavSize);
    }
  }

  /** A file the OGG hint converts never reaches the other two commands. */
  lemma OggSuccessStops(run: Strategy -> Attempt)
    requires Succeeded(run(OggHint))
    ensures Tried(run) == [OggHint]
  {
  }

  /** Auto-detection runs only after both hinted commands failed. */
  lemma {:induction false} AutoDetectRunsLast(run: Strategy -> Attempt)
    ensures NoHint in Tried(run) <==> !Succeeded(run(OggHint)) && !Succeeded(run(AudioHint))
  {
    var k := FirstSuccess(Strategies, run);
    assert Strategies[0] == OggHint && Strategies[1] == AudioHint && Strategies[2] == NoHint;
    if k < |Strategies| {
      assert NoHint in Strategies[..k + 1] <==> k == 2;
    }
  }

  /** All failed exactly when no command returned 0, whatever the failing ones did. */
  lemma {:induction false} AllFailedIffNoZeroExit(run: Strategy -> Attempt)
    ensures Conversion(run) == Failure(AllFailed)
            <==> forall s :: s in Strategies ==> !Succeeded(run(s))
  {
    var k := FirstSuccess(Strategies, run);
    assert AllFailed != EmptyWav;
    if k < |Strategies| {
      assert Strategies[k] in Strategies;
    } else {
      forall s | s in Strategies ensures !Succeeded(run(s)) {
        var j :| 0 <= j < |Strategies| && Strategies[j] == s;
      }
    }
  }

  /** A zero exit with an empty WAV file ends conversion with its own error, distinct from
      AllFailed, and no later command runs. */
  lemma {:induction false} EmptyWavStops(run: Strategy -> Attempt, k: nat)
    requires k < |Strategies| && Succeeded(run(Strategies[k])) && run(Strategies[k]).outputSize == 0
    requires forall j :: 0 <= j < k ==> !Succeeded(run(Strategies[j]))
    ensures Conversion(run) == Failure(EmptyWav) && EmptyWav != AllFailed
    ensures Tried(run) == Strategies[..k + 1]
  {
  }

  /** A raising command is skipped just like one with a non-zero return code: the outcome
      depends only on which commands returned 0 and what size of WAV those left. */
  lemma {:induction false} FailuresAreInterchangeable(run: Strategy -> Attempt, run': Strategy -> Attempt)
    requires forall s :: Succeeded(run(s)) <==> Succeeded(run'(s))
    requires forall s :: Succeeded(run(s)) && Succeeded(run'(s)) ==> run(s).outputSize == run'(s).outputSize
    ensures Tried(run) == Tried(run') && Conversion(run) == Conversion(run')
  {
    SameFirstSuccess(Strategies, run, run');
  }

  lemma {:induction false} SameFirstSuccess(ss: seq<Strategy>, run: Strategy -> Attempt, run': Strategy -> Attempt)
    requires forall s :: Succeeded(run(s)) <==> Succeeded(run'(s))
    ensures FirstSuccess(ss, run) == FirstSuccess(ss, run')
  {
    if ss != [] {
      SameFirstSuccess(ss[1..], run, run');
    }
  }
}
