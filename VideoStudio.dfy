/**
 * The studio component: the five-beat shot list built from a seed, the
 * tagline carousel, and the record toggle that drives the recording hook and
 * keeps the download link of the latest take.
 *
 * `URL.createObjectURL` is an oracle: the URL it returns is a parameter.
 * `URL.revokeObjectURL` is reported as an out-parameter naming the URL revoked.
 */
module VideoStudio {
  import opened CanvasRecorder

  datatype Intro = Intro(visual: string, narration: string, prompt: string)

  datatype ScriptBeat = ScriptBeat(id: nat, timestamp: string, visual: string, narration: string, prompt: string)

  const HERO_TAGLINES: seq<string> := [
    "The planet is your canvas.",
    "Intelligence with a global pulse.",
    "From satellites to city streets.",
    "Tomorrow's atlas is AI powered.",
    "See the world, augmented."
  ]

  const INTRO_VARIANTS: seq<Intro> := [
    Intro("Title burst over neon earth.",
          "AI is rewriting how we see our planet.",
          "Close-up orbital shot, neon holographic earth, cinematic lighting"),
    Intro("Neon earth ignites with data arcs.",
          "AI vision redraws the map in real time.",
          "Orbital macro lens, glowing data threads, deep blues"),
    Intro("Planetary mesh builds from a single spark.",
          "Machine intelligence is stitching a living atlas.",
          "Point-cloud planet, iridescent glow, volumetric atmosphere")
  ]

  /** The four beats after the intro; none depends on the seed. */
  const FIXED_BEATS: seq<ScriptBeat> := [
    ScriptBeat(2, "1.2s", "Data rings sweep continents.",
               "Every city becomes a live pulse of data.",
               "Glowing data rings wrapping continents, volumetric fog, cyberpunk"),
    ScriptBeat(3, "2.4s", "Drone POV dives toward skyline.",
               "Vision models chart opportunity in real time.",
               "Futuristic drone flythrough, glass skyscrapers, sunrise rim light"),
    ScriptBeat(4, "3.6s", "Networks stitch global grid.",
               "Networks sync ideas from Lagos to Tokyo.",
               "Global network mesh wires, luminous nodes, deep blues"),
    ScriptBeat(5, "4.8s", "Logo and CTA flare out.",
               "This is your world\U{2014}amplified by AI.",
               "Minimal logo outro, particle trails, bold typography")
  ]

  const TIMESTAMPS: seq<string> := ["0.0s", "1.2s", "2.4s", "3.6s", "4.8s"]

  /**
   * JavaScript's `a % n` on integers: the remainder takes the sign of `a`
   * (truncating division). Against Dafny's Euclidean `%`, it is the same for a
   * nonnegative dividend, and `n` less for a negative one that `n` does not divide.
   */
  function JsRemainder(a: int, n: int): (r: int)
    requires n > 0
    ensures -n < r < n
    ensures a >= 0 ==> r == a % n
    ensures a < 0 ==> r == if a % n == 0 then 0 else a % n - n
  {
    if a >= 0 then a % n
    else
      NegatedRemainder(a, n);
      -((-a) % n)
  }

  /** Negating the remainder of `-a` gives the Euclidean remainder of `a`, shifted down by `n` unless it is zero. */
  lemma NegatedRemainder(a: int, n: int)
    requires n > 0 && a < 0
    ensures -((-a) % n) == if a % n == 0 then 0 else a % n - n
  {
    var q, m := (-a) / n, (-a) % n;
    assert -a == n * q + m && 0 <= m < n;
    if m == 0 {
      assert a == n * (-q) + 0;
      RemainderUnique(a, n, -q, 0);
    } else {
      assert a == n * (-q - 1) + (n - m);
      RemainderUnique(a, n, -q - 1, n - m);
    }
  }

  /** Euclidean division has one remainder: any `a == n * q + r` with `0 <= r < n` gives `a % n == r`. */
  lemma RemainderUnique(a: int, n: int, q: int, r: int)
    requires n > 0 && 0 <= r < n && a == n * q + r
    ensures a % n == r
  {
    var q2, r2 := a / n, a % n;
    assert a == n * q2 + r2 && 0 <= r2 < n;
    assert n * q - n * q2 == r2 - r;
    assert n * (q - q2) == r2 - r;
    if q > q2 {
      MultipleAtLeast(n, q - q2);
    } else if q < q2 {
      assert n * (q2 - q) == r - r2;
      MultipleAtLeast(n, q2 - q);
    }
  }

  lemma {:induction false} MultipleAtLeast(n: int, d: int)
    requires n > 0 && d >= 1
    ensures n * d >= n
  {
    if d > 1 {
      MultipleAtLeast(n, d - 1);
      assert n * d == n * (d - 1) + n;
    }
  }

  /**
   * `buildScript(seed)`. A negative remainder indexes `INTRO_VARIANTS` at a
   * negative position, which yields `undefined`, and reading `intro.visual`
   * then throws: that outcome is `None`.
   */
  function BuildScript(seed: int): (r: Option<seq<ScriptBeat>>)
    ensures r.Some? <==> JsRemainder(seed, |INTRO_VARIANTS|) >= 0
    ensures r.Some? ==> |r.value| == 5
    ensures r.Some? ==> forall k :: 0 <= k < 5 ==> r.value[k].id == k + 1 && r.value[k].timestamp == TIMESTAMPS[k]
  {
    var index := JsRemainder(seed, |INTRO_VARIANTS|);
    if index < 0 then None
    else
      var intro := INTRO_VARIANTS[index];
      Some([ScriptBeat(1, "0.0s", intro.visual, intro.narration, intro.prompt)] + FIXED_BEATS)
  }

  /** A script is built exactly for the seeds that are nonnegative or multiples of 3. */
  lemma BuildScriptDefinedIff(seed: int)
    ensures BuildScript(seed).Some? <==> seed >= 0 || seed % 3 == 0
  {
    if seed < 0 {
      var q, m := (-seed) / 3, (-seed) % 3;
      assert -seed == 3 * q + m && 0 <= m < 3;
      if m == 0 {
        assert seed == 3 * (-q);
      } else {
        assert seed == 3 * (-q - 1) + (3 - m);
      }
    }
  }

  /**
   * Whenever a script is built, its first beat carries the intro variant at
   * the JavaScript remainder `seed % 3` (for a nonnegative seed, the ordinary
   * remainder, in [0,3)); the other four beats are the same for every seed.
   */
  lemma BuildScriptIntro(seed: int)
    requires BuildScript(seed).Some?
    ensures 0 <= JsRemainder(seed, 3) < 3
    ensures seed >= 0 ==> JsRemainder(seed, 3) == seed % 3 && 0 <= seed % 3 < 3
    ensures var beats := BuildScript(seed).value;
      var intro := INTRO_VARIANTS[JsRemainder(seed, 3)];
      && beats[0].visual == intro.visual
      && beats[0].narration == intro.narration
      && beats[0].prompt == intro.prompt
      && beats[1..] == FIXED_BEATS
  {
  }

  /** Seeds congruent modulo 3 for which a script is built give the same script. */
  lemma CongruentSeedsSameScript(a: int, b: int)
    requires BuildScript(a).Some? && BuildScript(b).Some? && a % 3 == b % 3
    ensures BuildScript(a) == BuildScript(b)
  {
  }

  /** Under JavaScript's `%`, `-3` and `-6` select variant 0 (their remainder is negative zero) while `-1` throws. */
  lemma NegativeSeeds()
    ensures BuildScript(-3) == BuildScript(0)
    ensures BuildScript(-6) == BuildScript(0)
    ensures BuildScript(-1).None?
  {
  }

  /** `handleTaglineShuffle`'s update: `(prev + 1) % HERO_TAGLINES.length`. */
  function NextTagline(i: int): (r: int)
    ensures 0 <= i < |HERO_TAGLINES| ==> 0 <= r < |HERO_TAGLINES| && (r == i + 1 || (i == |HERO_TAGLINES| - 1 && r == 0))
  {
    JsRemainder(i + 1, |HERO_TAGLINES|)
  }

  /** `n` shuffles in a row. */
  function ShuffleTimes(i: int, n: nat): int {
    if n == 0 then i else NextTagline(ShuffleTimes(i, n - 1))
  }

  /** One shuffle of a reduced index is one step of counting modulo 5. */
  lemma ShuffleStepIsModular(k: int)
    requires k >= 0
    ensures NextTagline(k % 5) == (k + 1) % 5
  {
    var q, m := k / 5, k % 5;
    assert k == 5 * q + m && 0 <= m < 5;
    if m < 4 {
      assert k + 1 == 5 * q + (m + 1);
    } else {
      assert k + 1 == 5 * (q + 1);
    }
  }

  /** From a valid index, `n` shuffles advance it by `n` modulo 5. */
  lemma {:induction false} ShuffleTimesAdvances(i: int, n: nat)
    requires 0 <= i < |HERO_TAGLINES|
    ensures ShuffleTimes(i, n) == (i + n) % |HERO_TAGLINES|
  {
    if n > 0 {
      ShuffleTimesAdvances(i, n - 1);
      ShuffleStepIsModular(i + n - 1);
    }
  }

  /** Five shuffles bring the index back to where it started. */
  lemma FiveShufflesReturn(i: int)
    requires 0 <= i < |HERO_TAGLINES|
    ensures ShuffleTimes(i, 5) == i
  {
    assert |HERO_TAGLINES| == 5;
    ShuffleTimesAdvances(i, 5);
    RemainderUnique(i + 5, 5, 1, i);
  }

  /** What the toggle called on the recording hook. */
  datatype ToggleAction = CalledStop | CalledStart

  class VideoStudio {
    var canvasEl: Option<Canvas>
    var taglineIndex: int
    var downloadUrl: Option<string>
    const recorder: CanvasRecorder

    ghost predicate Valid()
      reads this, recorder
    {
      0 <= taglineIndex < |HERO_TAGLINES| &&
      (downloadUrl.Some? ==> downloadUrl.value != "") &&
      recorder.Valid()
    }

    constructor ()
      ensures Valid() && fresh(recorder)
      ensures canvasEl == None && taglineIndex == 0 && downloadUrl == None
      ensures recorder.Snapshot() == INITIAL
    {
      canvasEl := None;
      taglineIndex := 0;
      downloadUrl := None;
      recorder := new CanvasRecorder();
    }

    /** The tagline on screen. */
    function Tagline(): (t: string)
      requires Valid()
      reads this, recorder
      ensures t in HERO_TAGLINES
    {
      HERO_TAGLINES[taglineIndex]
    }

    /** The shot list on screen: `buildScript(taglineIndex)`, whose intro is variant `taglineIndex % 3`. */
    function Script(): (beats: seq<ScriptBeat>)
      requires Valid()
      reads this, recorder
      ensures |beats| == 5
      ensures var intro := INTRO_VARIANTS[taglineIndex % 3];
        beats[0].visual == intro.visual && beats[0].narration == intro.narration && beats[0].prompt == intro.prompt
    {
      BuildScript(taglineIndex).value
    }

    method HandleCanvasReady(canvas: Option<Canvas>)
      requires Valid()
      modifies this`canvasEl
      ensures Valid() && canvasEl == canvas
    {
      canvasEl := canvas;
    }

    method HandleTaglineShuffle()
      requires Valid()
      modifies this`taglineIndex
      ensures Valid()
      ensures taglineIndex == NextTagline(old(taglineIndex))
      ensures taglineIndex == (old(taglineIndex) + 1) % |HERO_TAGLINES|
    {
      taglineIndex := NextTagline(taglineIndex);
    }

    /**
     * `handleRecordToggle`. `status` is the recorder's own state, `platform`
     * what a `start` would find, and `createdUrl` what `URL.createObjectURL`
     * returns for a new take.
     */
    method HandleRecordToggle(status: RecordingState, platform: Platform, createdUrl: string)
      returns (action: ToggleAction, revoked: Option<string>)
      requires Valid()
      requires createdUrl != ""
      modifies this`downloadUrl, recorder
      ensures Valid()
      ensures canvasEl == old(canvasEl) && taglineIndex == old(taglineIndex)
      ensures old(recorder.state.isRecording) ==>
        var stopped := StopSession(old(recorder.Snapshot()), status);
        && action == CalledStop
        && recorder.Snapshot() == stopped.after
        && (stopped.blob.Some? ==> downloadUrl == Some(createdUrl) && revoked == old(downloadUrl))
        && (stopped.blob.None? ==> downloadUrl == old(downloadUrl) && revoked == None)
    ensures !old(recorder.state.isRecording) ==>
        && action == CalledStart
        && recorder.Snapshot() == StartSession(old(recorder.Snapshot()), canvasEl, platform)
        && downloadUrl == old(downloadUrl) && revoked == None
    {
      revoked := None;
      if recorder.state.isRecording {
        action := CalledStop;
        var blob, _ := recorder.Stop(status);
        if blob.Some? {
          var url := createdUrl;
          var prev := downloadUrl;
          if prev.Some? && prev.value != "" {
            revoked := prev;
          }
          downloadUrl := Some(url);
        }
        return;
      }
      action := CalledStart;
      recorder.Start(canvasEl, platform);
    }
  }

  /** The toggle always has a take to link while the hook says it is recording: a recording hook holds a recorder. */
  lemma ToggleWhileRecordingYieldsTake(s: Session, status: RecordingState)
    requires WellFormed(s) && s.state.isRecording
    ensures StopSession(s, status).blob == Some(Blob(Joined(s.chunks), BLOB_TYPE))
    ensures !StopSession(s, status).after.state.isRecording
  {
  }
}
