/** condition.go: the validity window and audience list of a Conditions
    value. This file is written against a Conditions whose audience
    restriction is a single record, unlike the list in interface.go, so it
    has a module (and a Conditions) of its own. */
module Condition {
  import opened Saml
  import TimeFmt

  /** The length of the validity window SetNotBefore opens, in minutes. */
  const WindowMinutes: int := 11

  /** The state of a Conditions value as condition.go sees it. */
  datatype Window = Window(notBefore: TimeFmt.Instant, notOnOrAfter: TimeFmt.Instant,
                           audienceRestriction: AudienceRestriction)

  /** The state after SetNotBefore(t): the window [t, t + 660 s), audiences untouched. */
  function WithNotBefore(w: Window, t: TimeFmt.Instant): (r: Window)
    ensures r.notBefore == t && r.notOnOrAfter == t + 660
    ensures r.notBefore < r.notOnOrAfter
    ensures r.audienceRestriction == w.audienceRestriction
  {
    w.(notBefore := t, notOnOrAfter := TimeFmt.AddMinutes(t, WindowMinutes))
  }

  /** The state after AddAudience(s): `s` appended to the audiences. */
  function WithAudience(w: Window, s: string): (r: Window)
    ensures |r.audienceRestriction.audience| == |w.audienceRestriction.audience| + 1
    ensures r.audienceRestriction.audience[..|w.audienceRestriction.audience|] == w.audienceRestriction.audience
    ensures r.audienceRestriction.audience[|w.audienceRestriction.audience|] == s
    ensures r.notBefore == w.notBefore && r.notOnOrAfter == w.notOnOrAfter
  {
    w.(audienceRestriction := AudienceRestriction(w.audienceRestriction.audience + [s]))
  }

  /** Setting the same start twice is setting it once, and the last start wins. */
  lemma NotBeforeLastWins(w: Window, t1: TimeFmt.Instant, t2: TimeFmt.Instant)
    ensures WithNotBefore(WithNotBefore(w, t1), t2) == WithNotBefore(w, t2)
    ensures WithNotBefore(WithNotBefore(w, t2), t2) == WithNotBefore(w, t2)
  {
  }

  /** The window and the audiences are independent: the two updates commute. */
  lemma UpdatesCommute(w: Window, t: TimeFmt.Instant, s: string)
    ensures WithAudience(WithNotBefore(w, t), s) == WithNotBefore(WithAudience(w, s), t)
  {
  }

  /** Audiences added one after another appear in the order they were added. */
  lemma AudiencesInOrder(w: Window, s1: string, s2: string)
    ensures WithAudience(WithAudience(w, s1), s2).audienceRestriction.audience ==
            w.audienceRestriction.audience + [s1, s2]
  {
    assert w.audienceRestriction.audience + [s1] + [s2] == w.audienceRestriction.audience + [s1, s2];
  }

  /** A `*Conditions`: the fields the two methods update in place. */
  class Conditions {
    var notBefore: TimeFmt.Instant
    var notOnOrAfter: TimeFmt.Instant
    var audienceRestriction: AudienceRestriction

    function Value(): (w: Window)
      reads this
      ensures w.notBefore == notBefore && w.notOnOrAfter == notOnOrAfter
      ensures w.audienceRestriction == audienceRestriction
    {
      Window(notBefore, notOnOrAfter, audienceRestriction)
    }

    /** The zero value: both instants are the zero time.Time, which
        formats as 0001-01-01T00:00:00, and there is no audience. */
    constructor ()
      ensures Value() == Window(TimeFmt.ZeroInstant, TimeFmt.ZeroInstant, AudienceRestriction([]))
      ensures TimeFmt.Format(Value().notBefore) == "0001-01-01T00:00:00"
      ensures TimeFmt.Format(Value().notOnOrAfter) == "0001-01-01T00:00:00"
    {
      notBefore := TimeFmt.ZeroInstant;
      notOnOrAfter := TimeFmt.ZeroInstant;
      audienceRestriction := AudienceRestriction([]);
      TimeFmt.ZeroFormat();
    }

    method SetNotBefore(t: TimeFmt.Instant)
      modifies this
      ensures Value() == WithNotBefore(old(Value()), t)
    {
      notBefore := t;
      notOnOrAfter := TimeFmt.AddMinutes(t, WindowMinutes);
    }

    method AddAudience(s: string)
      modifies this
      ensures Value() == WithAudience(old(Value()), s)
    {
      audienceRestriction := AudienceRestriction(audienceRestriction.audience + [s]);
    }
  }
}
