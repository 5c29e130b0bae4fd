/** The scheduling picker (src/components/ServiceScheduling.tsx): the time
    slots a day offers and the picked date and slot. */
module Scheduling {
  import opened Wrappers

  /** A calendar day, counted from 1 January 1970 in local time. */
  datatype Date = Date(epochDay: int)

  /** `date.getDay()`: 0 is Sunday; 1 January 1970 was a Thursday. */
  function DayOfWeek(d: Date): (r: int)
    ensures 0 <= r < 7
    ensures (r - d.epochDay - 4) % 7 == 0
  {
    (d.epochDay + 4) % 7
  }

  const WeekendSlots: seq<string> := ["10:00 AM", "12:00 PM", "2:00 PM"]
  const WeekdaySlots: seq<string> := ["9:00 AM", "11:00 AM", "1:00 PM", "3:00 PM", "5:00 PM"]

  /** `getAvailableTimeSlots(date)`. */
  function AvailableTimeSlots(date: Option<Date>): (r: seq<string>)
    ensures r == [] <==> date.None?
    ensures date.Some? ==> (|r| == 3 <==> DayOfWeek(date.value) == 0 || DayOfWeek(date.value) == 6)
  {
    match date
    case None => []
    case Some(d) => if DayOfWeek(d) == 0 || DayOfWeek(d) == 6 then WeekendSlots else WeekdaySlots
  }

  /** No date, no slots; Saturdays and Sundays offer the three weekend slots,
      other days the five weekday slots; and the offer repeats every week. */
  lemma AvailableTimeSlotsSpec(d: Date)
    ensures AvailableTimeSlots(None) == []
    ensures |AvailableTimeSlots(Some(d))| == 3 <==> DayOfWeek(d) in {0, 6}
    ensures |AvailableTimeSlots(Some(d))| == 5 <==> DayOfWeek(d) in {1, 2, 3, 4, 5}
    ensures AvailableTimeSlots(Some(Date(d.epochDay + 7))) == AvailableTimeSlots(Some(d))
  {
    assert DayOfWeek(Date(d.epochDay + 7)) == DayOfWeek(d) by {
      assert d.epochDay + 7 + 4 == (d.epochDay + 4) + 7 * 1;
    }
  }

  class Scheduler {
    var date: Option<Date>
    var timeSlot: Option<string>

    constructor (selectedDate: Option<Date>, selectedTime: Option<string>)
      ensures date == selectedDate && timeSlot == selectedTime
    {
      date, timeSlot := selectedDate, selectedTime;
    }

    /** The slots the picker lists for its date. */
    function TimeSlots(): seq<string>
      reads this
    {
      AvailableTimeSlots(date)
    }

    /** `handleDateChange(newDate)`: a new date always drops the chosen slot. */
    method HandleDateChange(newDate: Option<Date>)
      modifies this
      ensures date == newDate && timeSlot == None
    {
      date := newDate;
      timeSlot := None;
    }

    /** `handleTimeSelect(time)`: the slot is recorded; `onScheduleSelect`
        receives the date and slot only when a date is set. */
    method HandleTimeSelect(time: string) returns (notified: Option<(Date, string)>)
      modifies this
      ensures date == old(date) && timeSlot == Some(time)
      ensures notified.Some? <==> date.Some?
      ensures notified.Some? ==> notified.value == (date.value, time)
    {
      timeSlot := Some(time);
      if date.Some? {
        notified := Some((date.value, time));
      } else {
        notified := None;
      }
    }
  }
}
