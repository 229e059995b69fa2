/**
 * The Buzz 3 driver: the two enable pins of the amplifier select one of
 * four volume levels, and a PWM output plays the tone. The pin levels and
 * the PWM settings are the state; every write to them and every pause is
 * logged in order.
 */
module Buzz3 {
  import opened Wrappers

  /** The levels of VOLUME_LEVELS, in the table's order. */
  datatype Volume = Mute | Low | Medium | High

  const Volumes: seq<Volume> := [Mute, Low, Medium, High]

  /** The default duty cycle of set_tone, half of the 16-bit range. */
  const DefaultDuty := 32768
  /** The frequency set_tone leaves the PWM at when it stops the tone. */
  const IdleFreq := 1000

  function Name(v: Volume): string
  {
    match v
    case Mute => "mute"
    case Low => "low"
    case Medium => "medium"
    case High => "high"
  }

  /** The (EN1, EN2) levels of a volume. */
  function Pins(v: Volume): (p: (int, int))
    ensures p.0 in {0, 1} && p.1 in {0, 1}
  {
    match v
    case Mute => (0, 0)
    case Low => (0, 1)
    case Medium => (1, 0)
    case High => (1, 1)
  }

  /** The table entry a volume name selects, or the ValueError for any other name. */
  function VolumeOf(level: string): (r: Result<Volume>)
    ensures r.Ok? ==> Name(r.value) == level
    ensures r.Err? ==> forall v: Volume :: Name(v) != level
  {
    if level == "mute" then Ok(Mute)
    else if level == "low" then Ok(Low)
    else if level == "medium" then Ok(Medium)
    else if level == "high" then Ok(High)
    else Err("level must be one of: mute, low, medium, high")
  }

  /** The first table entry from index i on whose pins read (e1, e2). */
  function FindFrom(e1: int, e2: int, i: nat): (r: Option<Volume>)
    requires i <= |Volumes|
    decreases |Volumes| - i
    ensures r.Some? ==> Pins(r.value) == (e1, e2)
    ensures r.None? ==> forall j :: i <= j < |Volumes| ==> Pins(Volumes[j]) != (e1, e2)
  {
    if i == |Volumes| then None
    else if Pins(Volumes[i]) == (e1, e2) then Some(Volumes[i])
    else FindFrom(e1, e2, i + 1)
  }

  /** What get_volume_level reports for the pin levels: the matching name, or "unknown". */
  function LevelName(e1: int, e2: int): string
  {
    match FindFrom(e1, e2, 0)
    case Some(v) => Name(v)
    case None => "unknown"
  }

  /** Different levels drive different pins, so a level can be read back from them. */
  lemma PinsInjective(v: Volume, w: Volume)
    requires Pins(v) == Pins(w)
    ensures v == w
  {
  }

  /** Every 0/1 pin pair is some level's, so "unknown" never comes back from 0/1 pins. */
  lemma PinsCover(e1: int, e2: int)
    requires e1 in {0, 1} && e2 in {0, 1}
    ensures FindFrom(e1, e2, 0).Some?
    ensures LevelName(e1, e2) != "unknown"
  {
    assert Pins(Volumes[if e1 == 0 then (if e2 == 0 then 0 else 1) else (if e2 == 0 then 2 else 3)]) == (e1, e2);
  }

  /** The name of a level names it back. */
  lemma {:induction false} NameRoundTrip(v: Volume)
    ensures VolumeOf(Name(v)) == Ok(v)
  {
    match v
    case Mute =>
    case Low =>
    case Medium =>
    case High =>
  }

  /** Reading a level's pins back gives its name. */
  lemma LevelOfPins(v: Volume)
    ensures LevelName(Pins(v).0, Pins(v).1) == Name(v)
  {
    var p := Pins(v);
    PinsCover(p.0, p.1);
    PinsInjective(FindFrom(p.0, p.1, 0).value, v);
  }

  /** The hardware writes and pauses of the driver. */
  datatype Event =
    | En1(level: int)
    | En2(level: int)
    | Duty(duty: int)
    | Freq(freq: int)
    | SleepMs(ms: int)

  /** The pin writes of set_volume for a level. */
  function VolumeEvents(v: Volume): seq<Event>
  {
    [En1(Pins(v).0), En2(Pins(v).1)]
  }

  /** The PWM writes of set_tone: silence at the idle frequency, or the tone at the duty. */
  function ToneEvents(freq: int, duty: int): (e: seq<Event>)
    ensures freq <= 0 ==> e == [Duty(0), Freq(IdleFreq)]
    ensures freq > 0 ==> e == [Freq(freq), Duty(duty)]
  {
    if freq <= 0 then [Duty(0), Freq(IdleFreq)] else [Freq(freq), Duty(duty)]
  }

  /** A note of a riff: frequency, duration and the pause after it, which a two-element note has not. */
  datatype Note = Note(freq: int, dur: int, pause: Option<int>)

  /** The pause after a note: 0 for a two-element note. */
  function Pause(n: Note): int
  {
    match n.pause
    case None => 0
    case Some(p) => p
  }

  /** The writes and pauses of one note: the tone, its duration, silence, and the pause if positive. */
  function NoteEvents(n: Note): seq<Event>
  {
    ToneEvents(n.freq, DefaultDuty) + [SleepMs(n.dur)] + ToneEvents(0, DefaultDuty)
      + (if Pause(n) > 0 then [SleepMs(Pause(n))] else [])
  }

  /** The events of the first k notes of a riff. */
  function RiffEvents(riff: seq<Note>, k: nat): seq<Event>
    requires k <= |riff|
  {
    if k == 0 then [] else RiffEvents(riff, k - 1) + NoteEvents(riff[k - 1])
  }

  /** After every note the tone is off: each note's events end in set_tone(0) or its pause. */
  lemma NoteEndsSilent(n: Note)
    ensures var e := NoteEvents(n);
      if Pause(n) > 0 then e[|e| - 3..] == [Duty(0), Freq(IdleFreq), SleepMs(Pause(n))]
      else e[|e| - 2..] == [Duty(0), Freq(IdleFreq)]
  {
  }

  class Buzzer {
    var en1: int
    var en2: int
    var freq: int
    var duty: int
    var log: seq<Event>

    /** The pins carry one of the four levels. */
    predicate Valid()
      reads this
    {
      en1 in {0, 1} && en2 in {0, 1}
    }

    /** __init__: silent, muted, and no tone. */
    constructor ()
      ensures Valid() && en1 == 0 && en2 == 0 && duty == 0 && freq == IdleFreq
      ensures log == [Duty(0)] + VolumeEvents(Mute) + ToneEvents(0, DefaultDuty)
    {
      duty := 0;
      log := [Duty(0)];
      en1, en2, freq := 0, 0, IdleFreq;
      new;
      var _ := SetVolume("mute");
      SetTone(0, DefaultDuty);
    }

    /** set_volume: the two pins of a known level; an unknown name fails before any pin is written. */
    method SetVolume(level: string) returns (r: Result<()>)
      modifies this
      ensures r.Ok? <==> VolumeOf(level).Ok?
      ensures r.Err? ==> en1 == old(en1) && en2 == old(en2) && log == old(log)
      ensures r.Ok? ==> (en1, en2) == Pins(VolumeOf(level).value)
      ensures r.Ok? ==> log == old(log) + VolumeEvents(VolumeOf(level).value)
      ensures freq == old(freq) && duty == old(duty)
      ensures r.Ok? ==> Valid()
    {
      var v := VolumeOf(level);
      if v.Err? {
        return Err(v.reason);
      }
      var p := Pins(v.value);
      en1 := p.0;
      log := log + [En1(p.0)];
      en2 := p.1;
      log := log + [En2(p.1)];
      r := Ok(());
    }

    /** set_tone: a frequency of 0 or less silences the output; otherwise the frequency, then the duty. */
    method SetTone(f: int, d: int)
      modifies this
      ensures f <= 0 ==> duty == 0 && freq == IdleFreq
      ensures f > 0 ==> freq == f && duty == d
      ensures log == old(log) + ToneEvents(f, d)
      ensures en1 == old(en1) && en2 == old(en2)
    {
      if f <= 0 {
        duty := 0;
        log := log + [Duty(0)];
        freq := IdleFreq;
        log := log + [Freq(IdleFreq)];
      } else {
        freq := f;
        log := log + [Freq(f)];
        duty := d;
        log := log + [Duty(d)];
      }
    }

    /** time.sleep_ms. */
    method Sleep(ms: int)
      modifies this`log
      ensures log == old(log) + [SleepMs(ms)]
    {
      log := log + [SleepMs(ms)];
    }

    /** get_volume_level: the first table entry whose pins match, or "unknown". */
    method GetVolumeLevel() returns (name: string)
      ensures name == LevelName(en1, en2)
    {
      var i := 0;
      while i < |Volumes|
        invariant 0 <= i <= |Volumes|
        invariant FindFrom(en1, en2, 0) == FindFrom(en1, en2, i)
      {
        var v := Volumes[i];
        if (en1, en2) == Pins(v) {
          return Name(v);
        }
        i := i + 1;
      }
      return "unknown";
    }

    /**
     * beep: the tone at the given volume for the duration, then silence
     * and the volume that was in force before. An unknown volume fails
     * before anything is written.
     */
    method Beep(f: int, durationMs: int, volume: string) returns (r: Result<()>)
      requires Valid()
      modifies this
      ensures Valid()
      ensures r.Ok? <==> VolumeOf(volume).Ok?
      ensures r.Err? ==> log == old(log) && en1 == old(en1) && en2 == old(en2)
      ensures r.Ok? ==> en1 == old(en1) && en2 == old(en2) && duty == 0 && freq == IdleFreq
      ensures r.Ok? ==> log == old(log) + VolumeEvents(VolumeOf(volume).value) + ToneEvents(f, DefaultDuty)
                         + [SleepMs(durationMs)] + ToneEvents(0, DefaultDuty) + VolumeEvents(Restore(old(en1), old(en2)))
    {
      var prev := GetVolumeLevel();
      RestoreNames(en1, en2);
      r := SetVolume(volume);
      if r.Err? {
        return;
      }
      SetTone(f, DefaultDuty);
      Sleep(durationMs);
      SetTone(0, DefaultDuty);
      var back := SetVolume(prev);
    }

    /** One note of play_riff: the tone for its duration, silence, and its pause when positive. */
    method PlayNote(note: Note)
      modifies this
      ensures log == old(log) + NoteEvents(note)
      ensures en1 == old(en1) && en2 == old(en2)
    {
      var pause := if note.pause.None? then 0 else note.pause.value;
      SetTone(note.freq, DefaultDuty);
      Sleep(note.dur);
      SetTone(0, DefaultDuty);
      if pause > 0 {
        Sleep(pause);
      }
    }

    /** The loop of play_riff over the notes. */
    method PlayNotes(riff: seq<Note>)
      modifies this
      ensures log == old(log) + RiffEvents(riff, |riff|)
      ensures en1 == old(en1) && en2 == old(en2)
    {
      var k := 0;
      while k < |riff|
        invariant 0 <= k <= |riff|
        invariant log == old(log) + RiffEvents(riff, k)
        invariant en1 == old(en1) && en2 == old(en2)
      {
        PlayNote(riff[k]);
        AppendAssoc(old(log), RiffEvents(riff, k), NoteEvents(riff[k]));
        k := k + 1;
      }
    }

    /**
     * play_riff: each note's tone for its duration, silence, and its pause
     * when positive, at the given volume; then the volume that was in
     * force before. An unknown volume fails before anything is written.
     */
    method PlayRiff(riff: seq<Note>, volume: string) returns (r: Result<()>)
      requires Valid()
      modifies this
      ensures Valid()
      ensures r.Ok? <==> VolumeOf(volume).Ok?
      ensures r.Err? ==> log == old(log) && en1 == old(en1) && en2 == old(en2)
      ensures r.Ok? ==> en1 == old(en1) && en2 == old(en2)
      ensures r.Ok? ==> log == old(log) + VolumeEvents(VolumeOf(volume).value) + RiffEvents(riff, |riff|)
                         + VolumeEvents(Restore(old(en1), old(en2)))
    {
      var prev := GetVolumeLevel();
      RestoreNames(en1, en2);
      r := SetVolume(volume);
      if r.Err? {
        return;
      }
      PlayNotes(riff);
      var back := SetVolume(prev);
    }
  }

  /** The level 0/1 pins were at, which get_volume_level names and set_volume restores. */
  function Restore(e1: int, e2: int): (v: Volume)
    requires e1 in {0, 1} && e2 in {0, 1}
    ensures Pins(v) == (e1, e2)
  {
    PinsCover(e1, e2);
    FindFrom(e1, e2, 0).value
  }

  /** The name read back from 0/1 pins selects the level they were at. */
  lemma RestoreNames(e1: int, e2: int)
    requires e1 in {0, 1} && e2 in {0, 1}
    ensures VolumeOf(LevelName(e1, e2)) == Ok(Restore(e1, e2))
  {
    PinsCover(e1, e2);
    NameRoundTrip(Restore(e1, e2));
  }
}
