/** The save-status indicator in the dashboard header: how long ago the
    last save happened (`formatLastSaved`) and which of "Saving...",
    "Save failed" or that age is shown. Times are milliseconds on an
    abstract clock. */
module DashboardLayout {
  import opened Common

  /** The age label. `ClockTime` stands for `lastSaved.toLocaleTimeString()`,
      whose text depends on the locale and is not modelled. */
  datatype SavedLabel =
    | NotSaved
    | JustNow
    | SecondsAgo(seconds: nat)
    | MinutesAgo(minutes: nat)
    | ClockTime(savedAt: int)
  {
    /** The relative texts. Each label has its own text, and the count in
        "{n}s ago" or "{n}m ago" can be read back from the digits before
        the unit. */
    function Text(): (r: string)
      requires !ClockTime?
      ensures NotSaved? <==> r == "Not saved"
      ensures JustNow? <==> r == "Just now"
      ensures SecondsAgo? <==> |r| > 5 && r[|r| - 5..] == "s ago"
      ensures MinutesAgo? <==> |r| > 5 && r[|r| - 5..] == "m ago"
      ensures SecondsAgo? ==> DigitsValue(r[..|r| - 5]) == seconds
      ensures MinutesAgo? ==> DigitsValue(r[..|r| - 5]) == minutes
    {
      match this
      case NotSaved => "Not saved"
      case JustNow => "Just now"
      case SecondsAgo(s) => Decimal(s) + "s ago"
      case MinutesAgo(m) => Decimal(m) + "m ago"
    }
  }

  /** `Math.floor((now - lastSaved) / 1000)`, for any sign of the difference. */
  function ElapsedSeconds(savedAt: int, now: int): (r: int)
    ensures r * 1000 <= now - savedAt < r * 1000 + 1000
  {
    (now - savedAt) / 1000
  }

  function FormatLastSaved(lastSaved: Option<int>, now: int): (r: SavedLabel)
    ensures r == NotSaved <==> lastSaved.None?
    ensures lastSaved.Some? ==>
      var diff := ElapsedSeconds(lastSaved.value, now);
      && (r == JustNow <==> diff < 10)
      && (r.SecondsAgo? <==> 10 <= diff < 60)
      && (r.SecondsAgo? ==> r.seconds == diff)
      && (r.MinutesAgo? <==> 60 <= diff < 3600)
      && (r.MinutesAgo? ==> 1 <= r.minutes <= 59 && r.minutes * 60 <= diff < r.minutes * 60 + 60)
      && (r.ClockTime? <==> diff >= 3600)
      && (r.ClockTime? ==> r.savedAt == lastSaved.value)
  {
    match lastSaved
    case None => NotSaved
    case Some(saved) =>
      var diff := ElapsedSeconds(saved, now);
      if diff < 10 then JustNow
      else if diff < 60 then SecondsAgo(diff)
      else if diff < 3600 then MinutesAgo(diff / 60)
      else ClockTime(saved)
  }

  /** Between 10 and 59 seconds the label reads "{diff}s ago"; from one
      minute to under an hour it reads "{minutes}m ago". */
  lemma FormatLastSavedText(saved: int, now: int)
    requires ElapsedSeconds(saved, now) < 3600
    ensures var diff := ElapsedSeconds(saved, now);
            var t := FormatLastSaved(Some(saved), now).Text();
            && (diff < 10 ==> t == "Just now")
            && (10 <= diff < 60 ==> t == Decimal(diff) + "s ago")
            && (60 <= diff ==> t == Decimal(diff / 60) + "m ago")
  {
  }

  /** What the header shows. */
  datatype Indicator = Saving | SaveFailed | Saved(age: SavedLabel)
  {
    /** The header text: "Saving...", "Save failed", or the age label's
        text; the three never coincide. */
    function Caption(): (r: string)
      requires !(Saved? && age.ClockTime?)
      ensures Saving? <==> r == "Saving..."
      ensures SaveFailed? <==> r == "Save failed"
      ensures Saved? ==> r == age.Text()
    {
      match this
      case Saving => "Saving..."
      case SaveFailed => "Save failed"
      case Saved(l) => l.Text()
    }
  }

  /** Saving wins over an error, and an error over the age label. */
  function StatusIndicator(saving: bool, error: Option<string>, lastSaved: Option<int>, now: int): (r: Indicator)
    ensures r == Saving <==> saving
    ensures r == SaveFailed <==> !saving && error.Some?
    ensures r.Saved? ==> r.age == FormatLastSaved(lastSaved, now)
  {
    if saving then Saving
    else if error.Some? then SaveFailed
    else Saved(FormatLastSaved(lastSaved, now))
  }

  /** The compact status line on narrow screens appears only while saving
      or after a failure, with the same precedence. */
  function MobileIndicator(saving: bool, error: Option<string>): (r: Option<Indicator>)
    ensures r.Some? <==> saving || error.Some?
    ensures r.Some? ==> r.value == StatusIndicator(saving, error, None, 0)
  {
    if saving then Some(Saving) else if error.Some? then Some(SaveFailed) else None
  }
}
