/**
 * The read-aloud control of the detail view. One flag, `isReading`, is flipped
 * by the toggle button and forced back to false by the utterance's `onend` and
 * `onerror` callbacks. The browser's speech-synthesis engine is represented by
 * the log of `speak` and `cancel` calls made on it.
 */
module Playback {

  const Lang := "en-US"

  /** A `SpeechSynthesisUtterance` as configured before it is spoken. */
  datatype Utterance = Utterance(text: string, lang: string, volume: real, rate: real, pitch: real)

  /** Calls made on `window.speechSynthesis`. */
  datatype SynthCall = Speak(utterance: Utterance) | Cancel

  /** The utterance for a detail view: `${title}. ${content}`, English, at unit volume, rate and pitch. */
  function UtteranceFor(title: string, content: string): (u: Utterance)
    ensures Configured(u)
  {
    Utterance(title + ". " + content, Lang, 1.0, 1.0, 1.0)
  }

  predicate Configured(u: Utterance)
  {
    u.lang == Lang && u.volume == 1.0 && u.rate == 1.0 && u.pitch == 1.0
  }

  /** The spoken text starts with the title and ends with the content, joined by a full stop and a space. */
  lemma UtteranceText(title: string, content: string)
    ensures Configured(UtteranceFor(title, content))
    ensures |UtteranceFor(title, content).text| == |title| + 2 + |content|
    ensures UtteranceFor(title, content).text[..|title|] == title
    ensures UtteranceFor(title, content).text[|title|..|title| + 2] == ". "
    ensures UtteranceFor(title, content).text[|title| + 2..] == content
  {
  }

  /** A snapshot of the control: the flag and the calls made so far. */
  datatype Reader = Reader(isReading: bool, synth: seq<SynthCall>)

  const Idle := Reader(false, [])

  datatype Event =
    | Toggled(title: string, content: string)   // toggleSpeech, with the view's current title and content
    | Ended                                     // utterance.onend
    | Errored                                   // utterance.onerror

  function Step(r: Reader, e: Event): Reader
  {
    match e
    case Toggled(title, content) =>
      if r.isReading then Reader(false, r.synth + [Cancel])
      else Reader(true, r.synth + [Speak(UtteranceFor(title, content))])
    case Ended => r.(isReading := false)
    case Errored => r.(isReading := false)
  }

  function Run(r: Reader, es: seq<Event>): Reader
    decreases |es|
  {
    if es == [] then r else Run(Step(r, es[0]), es[1..])
  }

  /** A toggle flips the flag and makes exactly one engine call: a speak when idle, a cancel when reading. */
  lemma ToggleFlips(r: Reader, title: string, content: string)
    ensures Step(r, Toggled(title, content)).isReading == !r.isReading
    ensures |Step(r, Toggled(title, content)).synth| == |r.synth| + 1
    ensures Step(r, Toggled(title, content)).synth[|r.synth|] ==
              if r.isReading then Cancel else Speak(UtteranceFor(title, content))
  {
  }

  /** Start then stop, with no callback between, comes back to idle after one speak and one cancel. */
  lemma ToggleTwice(r: Reader, t1: string, c1: string, t2: string, c2: string)
    requires !r.isReading
    ensures Run(r, [Toggled(t1, c1), Toggled(t2, c2)]) == Reader(false, r.synth + [Speak(UtteranceFor(t1, c1)), Cancel])
  {
    var es := [Toggled(t1, c1), Toggled(t2, c2)];
    var r1 := Step(r, es[0]);
    var r2 := Step(r1, es[1]);
    assert es[1..] == [Toggled(t2, c2)];
    assert Run(r1, es[1..]) == Run(r2, []) == r2;
    assert r2.synth == r.synth + [Speak(UtteranceFor(t1, c1))] + [Cancel];
  }

  /** What holds of the control at every moment, starting from idle. */
  ghost predicate Coherent(r: Reader)
  {
    && (r.isReading ==> |r.synth| > 0 && r.synth[|r.synth| - 1].Speak?)
    && (forall i :: 0 <= i < |r.synth| && r.synth[i].Cancel? ==> 0 < i && r.synth[i - 1].Speak?)
    && (forall i :: 0 <= i < |r.synth| && r.synth[i].Speak? ==> Configured(r.synth[i].utterance))
  }

  /** Each event keeps the control coherent. */
  lemma StepCoherent(r: Reader, e: Event)
    requires Coherent(r)
    ensures Coherent(Step(r, e))
  {
    if e.Toggled? {
      var r' := Step(r, e);
      forall i | 0 <= i < |r'.synth| && r'.synth[i].Cancel?
        ensures 0 < i && r'.synth[i - 1].Speak?
      {
        if i < |r.synth| {
          assert r'.synth[i] == r.synth[i];
        }
      }
    }
  }

  /**
   * Over any run of toggles and callbacks: a cancel is only ever issued right
   * after a speak, every utterance is configured alike, and while reading the
   * last call made was a speak.
   */
  lemma {:induction false} RunCoherent(r: Reader, es: seq<Event>)
    requires Coherent(r)
    ensures Coherent(Run(r, es))
    decreases |es|
  {
    if es != [] {
      StepCoherent(r, es[0]);
      RunCoherent(Step(r, es[0]), es[1..]);
    }
  }

  /** The callbacks never call the engine: a run's calls are exactly those of its toggles, in order. */
  function Calls(r: Reader, es: seq<Event>): seq<SynthCall>
    decreases |es|
  {
    if es == [] then []
    else (match es[0]
          case Toggled(title, content) =>
            if r.isReading then [Cancel] else [Speak(UtteranceFor(title, content))]
          case _ => []) + Calls(Step(r, es[0]), es[1..])
  }

  lemma {:induction false} RunLogsCalls(r: Reader, es: seq<Event>)
    ensures Run(r, es).synth == r.synth + Calls(r, es)
    decreases |es|
  {
    if es != [] {
      var r1 := Step(r, es[0]);
      RunLogsCalls(r1, es[1..]);
      var head := match es[0]
                  case Toggled(title, content) =>
                    if r.isReading then [Cancel] else [Speak(UtteranceFor(title, content))]
                  case _ => [];
      assert r1.synth == r.synth + head;
      assert r.synth + head + Calls(r1, es[1..]) == r.synth + (head + Calls(r1, es[1..]));
    }
  }

  /** A run is its first `k` events followed by the rest, continuing from where the first part left off. */
  lemma {:induction false} RunSplit(r: Reader, es: seq<Event>, k: nat)
    requires k <= |es|
    ensures Run(r, es) == Run(Run(r, es[..k]), es[k..])
    decreases k
  {
    if k > 0 {
      assert es[..k][1..] == es[1..][..k - 1];
      assert es[k..] == es[1..][k - 1..];
      RunSplit(Step(r, es[0]), es[1..], k - 1);
    }
  }

  /** Once not reading, the control stays so until the next toggle. */
  lemma {:induction false} ReadingStaysOff(r: Reader, es: seq<Event>)
    requires !r.isReading
    requires forall i :: 0 <= i < |es| ==> !es[i].Toggled?
    ensures !Run(r, es).isReading
    decreases |es|
  {
    if es != [] {
      ReadingStaysOff(Step(r, es[0]), es[1..]);
    }
  }

  /**
   * After `onend` or `onerror`, from either state, the control is not reading
   * until the button is toggled again.
   */
  lemma CallbackEndsReading(r: Reader, es: seq<Event>, k: nat)
    requires k < |es| && (es[k].Ended? || es[k].Errored?)
    requires forall i :: k < i < |es| ==> !es[i].Toggled?
    ensures !Run(r, es).isReading
  {
    var head := es[..k + 1];
    RunSplit(r, es, k + 1);
    RunSplit(r, head, k);
    assert head[..k] == es[..k] && head[k..] == [es[k]];
    var before := Run(r, es[..k]);
    assert Run(before, [es[k]]) == Run(Step(before, es[k]), []);
    ReadingStaysOff(Run(r, head), es[k + 1..]);
  }

  /** The control starts coherent. */
  lemma IdleCoherent()
    ensures Coherent(Idle)
  {
  }

  /** What the component renders: nothing when closed, otherwise the view with its toggle icon. */
  datatype View = Hidden | Shown(title: string, content: string, showsStop: bool)

  class Modal {
    var isReading: bool
    /** The calls made on the speech-synthesis engine, oldest first. */
    var synth: seq<SynthCall>

    ghost function State(): Reader
      reads this
    {
      Reader(isReading, synth)
    }

    constructor ()
      ensures State() == Idle && Coherent(State())
    {
      isReading := false;
      synth := [];
    }

    /** `toggleSpeech`: cancel when reading, otherwise speak `${title}. ${content}`. */
    method ToggleSpeech(title: string, content: string)
      requires Coherent(State())
      modifies this
      ensures Coherent(State())
      ensures old(isReading) ==> !isReading && synth == old(synth) + [Cancel]
      ensures !old(isReading) ==> isReading && synth == old(synth) + [Speak(UtteranceFor(title, content))]
      ensures State() == Step(old(State()), Toggled(title, content))
    {
      if isReading {
        synth := synth + [Cancel];
        isReading := false;
      } else {
        var utterance := UtteranceFor(title, content);
        synth := synth + [Speak(utterance)];
        isReading := true;
      }
    }

    /** `utterance.onend` */
    method OnEnd()
      requires Coherent(State())
      modifies this
      ensures Coherent(State())
      ensures !isReading && synth == old(synth)
      ensures State() == Step(old(State()), Ended)
    {
      isReading := false;
    }

    /** `utterance.onerror`: the error is only logged to the console. */
    method OnError()
      requires Coherent(State())
      modifies this
      ensures Coherent(State())
      ensures !isReading && synth == old(synth)
      ensures State() == Step(old(State()), Errored)
    {
      isReading := false;
    }

    /** Rendering reads the state and changes nothing: closed means nothing shown, and no cancel. */
    method Render(isOpen: bool, title: string, content: string) returns (view: View)
      ensures !isOpen ==> view == Hidden
      ensures isOpen ==> view == Shown(title, content, isReading)
    {
      if !isOpen {
        return Hidden;
      }
      return Shown(title, content, isReading);
    }
  }
}
