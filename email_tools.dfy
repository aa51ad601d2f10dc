/**
  * The stub tools the email agent can call (src/utils/email_tools.py). Each
  * returns a `(status, message)` pair; none of them has side effects. Tool
  * arguments arrive as JSON values decoded from the model's function call,
  * so Python's dynamic typing is kept: a value is formatted with `str()`
  * wherever the source uses it in an f-string.
  */
module EmailTools {
  import opened Wrappers
  import opened Strings

  const SuccessMarker := "Function call successful."
  const FailureMarker := "Function call failed."

  /** A decoded JSON argument value. `Other` stands for any value the tools only
      format (float, bool, null, object, a list that is not all strings), with
      its Python type name, its `str()` text and its `len()` if it has one. */
  datatype Arg =
    | Str(s: string)
    | Int(i: int)
    | StrList(items: seq<string>)
    | Other(typeName: string, text: string, size: Option<nat>)

  /** The keyword arguments of one call: a JSON object. */
  type Args = map<string, Arg>

  /** `str(v)` of a decoded argument (a list shows the `repr` of each item). */
  function Render(a: Arg): string {
    match a
    case Str(s) => s
    case Int(i) => IntToString(i)
    case StrList(items) => "[" + Join(Quoted(items), ", ") + "]"
    case Other(_, text, _) => text
  }

  /** The items of a list of strings as `str()` of the list shows them: each
      one is its `repr`, which reads back as the item. */
  function Quoted(items: seq<string>): (r: seq<string>)
    ensures |r| == |items|
    ensures forall k :: 0 <= k < |items| ==> r[k] == Repr(items[k]) && Unrepr(r[k]) == Some(items[k])
  {
    assert forall k :: 0 <= k < |items| ==> Unrepr(Repr(items[k])) == Some(items[k]) by {
      forall k | 0 <= k < |items| {
        ReprRoundTrip(items[k]);
      }
    }
    seq(|items|, k requires 0 <= k < |items| => Repr(items[k]))
  }

  /** `type(v).__name__` of a decoded argument. */
  function TypeName(a: Arg): string {
    match a
    case Str(_) => "str"
    case Int(_) => "int"
    case StrList(_) => "list"
    case Other(typeName, _, _) => typeName
  }

  /** The TypeError text of `len(v)` for a value without a length. */
  function NoLenError(a: Arg): string {
    "object of type '" + TypeName(a) + "' has no len()"
  }

  /** `len(v)`, or `None` where Python raises TypeError. */
  function Len(a: Arg): Option<nat> {
    match a
    case Str(s) => Some(|s|)
    case Int(_) => None
    case StrList(items) => Some(|items|)
    case Other(_, _, size) => size
  }

  /** The lines `write_email_tool` puts before the content. */
  function EmailHeader(to: Arg, subject: Arg): string {
    "Email prepared:\nTo: " + Render(to) + "\nSubject: " + Render(subject) + "\n\n"
  }

  /** `write_email_tool(to, subject, content)`: prepares the email text and
      reports success; the content follows the header verbatim. */
  function WriteEmailTool(to: Arg, subject: Arg, content: Arg): (r: (string, string))
    ensures r.0 == SuccessMarker
    ensures var head := EmailHeader(to, subject);
            |head| <= |r.1| && r.1[..|head|] == head && r.1[|head|..] == Render(content)
  {
    var head := EmailHeader(to, subject);
    var text := head + Render(content);
    assert text[..|head|] == head && text[|head|..] == Render(content);
    (SuccessMarker, text)
  }

  /** The part of the scheduling message that states the number of attendees. */
  function AttendeeClause(count: nat): string {
    " with " + NatToString(count) + " attendees for "
  }

  /** `schedule_meeting_tool(attendees, subject, duration_minutes, preferred_day)`:
      reports success with a message naming the subject, the day, how many
      attendees there are and the duration. `len(attendees)` raises on a value
      without a length, which is the only way this tool can fail. */
  function ScheduleMeetingTool(attendees: Arg, subject: Arg, durationMinutes: Arg, preferredDay: Arg): (r: Result<(string, string), string>)
    ensures r.Success? <==> Len(attendees).Some?
    ensures r.Failure? ==> r.error == NoLenError(attendees)
    ensures r.Success? ==> r.value.0 == SuccessMarker
    ensures r.Success? ==>
              r.value.1 == "Meeting '" + Render(subject) + "' scheduled for " + Render(preferredDay)
                           + AttendeeClause(Len(attendees).value) + Render(durationMinutes) + " minutes"
  {
    match Len(attendees)
    case None => Failure(NoLenError(attendees))
    case Some(n) =>
      Success((SuccessMarker, "Meeting '" + Render(subject) + "' scheduled for " + Render(preferredDay)
                              + " with " + NatToString(n) + " attendees for " + Render(durationMinutes) + " minutes"))
  }

  const AvailableSlots := ": 9:00 AM, 2:00 PM, 4:00 PM"

  /** `check_calendar_availability_tool(day)`: reports success with three fixed slots on that day. */
  function CheckCalendarAvailabilityTool(day: Arg): (r: (string, string))
    ensures r.0 == SuccessMarker
    ensures r.1 == "Available times on " + Render(day) + AvailableSlots
  {
    (SuccessMarker, "Available times on " + Render(day) + ": 9:00 AM, 2:00 PM, 4:00 PM")
  }

  /** None of the three tools ever reports the failure marker. */
  lemma NoToolReportsFailure(a: Arg, b: Arg, c: Arg, d: Arg)
    ensures WriteEmailTool(a, b, c).0 != FailureMarker
    ensures CheckCalendarAvailabilityTool(a).0 != FailureMarker
    ensures ScheduleMeetingTool(a, b, c, d).Success? ==> ScheduleMeetingTool(a, b, c, d).value.0 != FailureMarker
  {
    assert |SuccessMarker| != |FailureMarker|;
  }

  /** Scheduling with a list of attendees succeeds, and the number its message
      states reads back as exactly the number of attendees. */
  lemma ScheduleMeetingStatesAttendeeCount(attendees: seq<string>, subject: Arg, duration: Arg, day: Arg)
    ensures ScheduleMeetingTool(StrList(attendees), subject, duration, day).Success?
    ensures exists digits ::
              && ScheduleMeetingTool(StrList(attendees), subject, duration, day).value.1
                 == "Meeting '" + Render(subject) + "' scheduled for " + Render(day)
                    + " with " + digits + " attendees for " + Render(duration) + " minutes"
              && ParseInt(digits) == Some(|attendees|)
  {
    var digits := NatToString(|attendees|);
    IntToStringRoundTrip(|attendees|);
    assert ParseInt(digits) == Some(|attendees|);
  }
}
