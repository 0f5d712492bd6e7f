/** The "add to calendar" export of the home page: an event becomes a one-event
    iCalendar file whose start and end are written in the UTC form of the DATE-TIME
    value type (section 3.3.5 of RFC 5545, `YYYYMMDDTHHMMSSZ`), one hour apart. */
module Calendar {
  import opened Text

  /** An event listed on the home page; `datetime` is whatever the backend sent. */
  datatype Event = Event(name: string, id: string, datetime: string, description: string)

  /** One hour, in milliseconds. */
  const HourMs: int := 60 * 60 * 1000

  predicate IsDigit(c: char) {
    '0' <= c <= '9'
  }

  predicate AllDigits(s: string) {
    forall i :: 0 <= i < |s| ==> IsDigit(s[i])
  }

  /** What `Date.prototype.toISOString` returns for a year from 0 to 9999:
      `YYYY-MM-DDTHH:mm:ss.sssZ`, 24 characters. */
  predicate IsIsoUtc(iso: string) {
    && |iso| == 24
    && AllDigits(iso[0..4]) && iso[4] == '-' && AllDigits(iso[5..7]) && iso[7] == '-'
    && AllDigits(iso[8..10]) && iso[10] == 'T'
    && AllDigits(iso[11..13]) && iso[13] == ':' && AllDigits(iso[14..16]) && iso[16] == ':'
    && AllDigits(iso[17..19]) && iso[19] == '.' && AllDigits(iso[20..23]) && iso[23] == 'Z'
  }

  /** The UTC form of an RFC 5545 DATE-TIME: eight date digits, `T`, six time
      digits, `Z`. */
  predicate IsBasicUtc(s: string) {
    && |s| == 16
    && AllDigits(s[0..8]) && s[8] == 'T' && AllDigits(s[9..15]) && s[15] == 'Z'
  }

  /** `iso.replace(/[-:]/g, '').split('.')[0] + 'Z'`. */
  function Stamp(iso: string): (r: string)
    ensures '-' !in r && ':' !in r && '.' !in r
    ensures |r| >= 1 && r[|r| - 1] == 'Z'
  {
    Split(RemoveAll(iso, Separators), '.')[0] + "Z"
  }

  /** The stamp brings in no character but the final `Z`. */
  lemma StampOnlyRemoves(iso: string, c: char)
    requires c !in iso && c != 'Z'
    ensures c !in Stamp(iso)
  {
    var stripped := RemoveAll(iso, Separators);
    RemoveAllOnlyRemoves(iso, Separators, c);
    var head := Split(stripped, '.')[0];
    assert head == stripped[..|head|];
  }

  /** Removing characters commutes with concatenation. */
  lemma {:induction false} RemoveAllAppend(a: string, b: string, drop: set<char>)
    ensures RemoveAll(a + b, drop) == RemoveAll(a, drop) + RemoveAll(b, drop)
    decreases |a|
  {
    if |a| > 0 {
      var head := if a[0] in drop then "" else [a[0]];
      assert (a + b)[0] == a[0] && (a + b)[1..] == a[1..] + b;
      RemoveAllAppend(a[1..], b, drop);
      assert RemoveAll(a + b, drop) == head + (RemoveAll(a[1..], drop) + RemoveAll(b, drop));
    } else {
      assert a + b == b;
    }
  }

  /** The characters `replace(/[-:]/g, '')` removes. */
  const Separators: set<char> := {'-', ':'}

  /** Stripping a slice that starts with digits keeps them in front. */
  lemma DigitsThen(s: string, i: nat, k: nat, j: nat)
    requires i <= k <= j <= |s| && AllDigits(s[i..k])
    ensures RemoveAll(s[i..j], Separators) == s[i..k] + RemoveAll(s[k..j], Separators)
  {
    assert s[i..j] == s[i..k] + s[k..j];
    RemoveAllAppend(s[i..k], s[k..j], Separators);
    forall n | 0 <= n < k - i ensures s[i..k][n] !in Separators {
      assert IsDigit(s[i..k][n]);
    }
    RemoveAllAbsent(s[i..k], Separators);
  }

  /** Stripping a slice drops or keeps its first character. */
  lemma CharThen(s: string, i: nat, j: nat)
    requires i < j <= |s|
    ensures RemoveAll(s[i..j], Separators)
      == (if s[i] in Separators then "" else [s[i]]) + RemoveAll(s[i + 1..j], Separators)
  {
    assert s[i..j][0] == s[i] && s[i..j][1..] == s[i + 1..j];
  }

  /** On a well-formed ISO string the stamp is its digits with the `T` kept, cut
      before the milliseconds, and so is in the UTC DATE-TIME form. */
  lemma StampOfIso(iso: string)
    requires IsIsoUtc(iso)
    ensures Stamp(iso) == iso[0..4] + iso[5..7] + iso[8..10] + "T" + iso[11..13] + iso[14..16] + iso[17..19] + "Z"
    ensures IsBasicUtc(Stamp(iso))
  {
    var date := iso[0..4] + iso[5..7] + iso[8..10];
    var time := iso[11..13] + iso[14..16] + iso[17..19];
    var millis := iso[20..24];
    var head := date + "T" + time;
    StripIso(iso);
    assert RemoveAll(iso, Separators) == head + ['.'] + millis;
    IsoDigits(iso);
    NoDotBetweenDigits(date, time);
    SplitAtFirstSeparator(head, '.', millis);
    BasicForm(date, time);
  }

  /** The date and time digits of a well-formed ISO string. */
  lemma IsoDigits(iso: string)
    requires IsIsoUtc(iso)
    ensures AllDigits(iso[0..4] + iso[5..7] + iso[8..10])
    ensures AllDigits(iso[11..13] + iso[14..16] + iso[17..19])
  {
    AllDigitsAppend(iso[0..4], iso[5..7]);
    AllDigitsAppend(iso[0..4] + iso[5..7], iso[8..10]);
    AllDigitsAppend(iso[11..13], iso[14..16]);
    AllDigitsAppend(iso[11..13] + iso[14..16], iso[17..19]);
  }

  lemma AllDigitsAppend(a: string, b: string)
    requires AllDigits(a) && AllDigits(b)
    ensures AllDigits(a + b)
  {
    forall i | 0 <= i < |a + b| ensures IsDigit((a + b)[i]) {
      if i < |a| {
        assert (a + b)[i] == a[i];
      } else {
        assert (a + b)[i] == b[i - |a|];
      }
    }
  }

  /** Digits around a `T` hold no `.`. */
  lemma NoDotBetweenDigits(date: string, time: string)
    requires AllDigits(date) && AllDigits(time)
    ensures '.' !in date + "T" + time
  {
    var head := date + "T" + time;
    forall i | 0 <= i < |head| ensures head[i] != '.' {
      if i < |date| {
        assert head[i] == date[i];
      } else if i > |date| {
        assert head[i] == time[i - |date| - 1];
      }
    }
  }

  /** Eight date digits, `T`, six time digits and `Z` make the UTC DATE-TIME form. */
  lemma BasicForm(date: string, time: string)
    requires |date| == 8 && |time| == 6 && AllDigits(date) && AllDigits(time)
    ensures IsBasicUtc(date + "T" + time + "Z")
  {
    var r := date + "T" + time + "Z";
    assert r[0..8] == date && r[9..15] == time;
  }

  /** The ISO string with its `-` and `:` removed: the date digits, `T`, the time
      digits, `.`, the milliseconds and `Z`. */
  lemma StripIso(iso: string)
    requires IsIsoUtc(iso)
    ensures RemoveAll(iso, Separators) ==
      iso[0..4] + iso[5..7] + iso[8..10] + "T" + iso[11..13] + iso[14..16] + iso[17..19] + "." + iso[20..24]
  {
    StripDate(iso);
    StripTime(iso);
    StripSeconds(iso);
    var y, mo, d, h, mi, se, ms := iso[0..4], iso[5..7], iso[8..10], iso[11..13], iso[14..16], iso[17..19], iso[20..23];
    assert iso[0..24] == iso;
    assert iso[20..24] == ms + "Z";
    assert y + (mo + (d + ("T" + (h + (mi + (se + ("." + (ms + "Z")))))))) == y + mo + d + "T" + h + mi + se + "." + (ms + "Z");
  }

  /** Stripping from the seconds on. */
  lemma StripSeconds(iso: string)
    requires |iso| == 24 && AllDigits(iso[17..19]) && iso[19] == '.' && AllDigits(iso[20..23]) && iso[23] == 'Z'
    ensures RemoveAll(iso[17..24], Separators) == iso[17..19] + ("." + (iso[20..23] + "Z"))
  {
    CharThen(iso, 23, 24);
    assert iso[24..24] == "";
    DigitsThen(iso, 20, 23, 24);
    CharThen(iso, 19, 24);
    DigitsThen(iso, 17, 19, 24);
  }

  /** Stripping from the minutes on. */
  lemma StripMinutes(iso: string)
    requires |iso| == 24 && iso[13] == ':' && AllDigits(iso[14..16]) && iso[16] == ':'
    ensures RemoveAll(iso[13..24], Separators) == iso[14..16] + RemoveAll(iso[17..24], Separators)
  {
    CharThen(iso, 16, 24);
    DigitsThen(iso, 14, 16, 24);
    CharThen(iso, 13, 24);
  }

  /** Stripping from the hours on. */
  lemma StripTime(iso: string)
    requires |iso| == 24 && AllDigits(iso[11..13]) && iso[13] == ':' && AllDigits(iso[14..16]) && iso[16] == ':'
    ensures RemoveAll(iso[11..24], Separators) == iso[11..13] + (iso[14..16] + RemoveAll(iso[17..24], Separators))
  {
    StripMinutes(iso);
    DigitsThen(iso, 11, 13, 24);
  }

  /** Stripping from the day on. */
  lemma StripDay(iso: string)
    requires |iso| == 24 && AllDigits(iso[8..10]) && iso[10] == 'T'
    ensures RemoveAll(iso[8..24], Separators) == iso[8..10] + ("T" + RemoveAll(iso[11..24], Separators))
  {
    CharThen(iso, 10, 24);
    DigitsThen(iso, 8, 10, 24);
  }

  /** Stripping from the month on. */
  lemma StripMonth(iso: string)
    requires |iso| == 24 && iso[4] == '-' && AllDigits(iso[5..7]) && iso[7] == '-'
    ensures RemoveAll(iso[4..24], Separators) == iso[5..7] + RemoveAll(iso[8..24], Separators)
  {
    CharThen(iso, 7, 24);
    DigitsThen(iso, 5, 7, 24);
    CharThen(iso, 4, 24);
  }

  /** Stripping from the start. */
  lemma StripDate(iso: string)
    requires |iso| == 24 && AllDigits(iso[0..4]) && iso[4] == '-' && AllDigits(iso[5..7]) && iso[7] == '-'
      && AllDigits(iso[8..10]) && iso[10] == 'T'
    ensures RemoveAll(iso[0..24], Separators) == iso[0..4] + (iso[5..7] + (iso[8..10] + ("T" + RemoveAll(iso[11..24], Separators))))
  {
    StripDay(iso);
    StripMonth(iso);
    DigitsThen(iso, 0, 4, 24);
  }

  /** The lines of the exported file, in order. */
  function IcsLines(ev: Event, startIso: string, endIso: string): seq<string>
  {
    [ "BEGIN:VCALENDAR",
      "VERSION:2.0",
      "BEGIN:VEVENT",
      "DTSTART:" + Stamp(startIso),
      "DTEND:" + Stamp(endIso),
      "SUMMARY:" + ev.name,
      "DESCRIPTION:" + ev.description,
      "END:VEVENT",
      "END:VCALENDAR" ]
  }

  /** The file `handleAddToCalendar` hands to the browser. */
  datatype IcsFile = IcsFile(startMs: int, endMs: int, content: string, fileName: string)

  /** `handleAddToCalendar(event)`: the event starts at `startMs` (the parsed
      `datetime`), ends an hour later, and `toIso` stands for `toISOString`. */
  function AddToCalendar(ev: Event, startMs: int, toIso: int -> string): (f: IcsFile)
  {
    var endMs := startMs + HourMs;
    IcsFile(startMs, endMs, Join(IcsLines(ev, toIso(startMs), toIso(endMs)), '\n'), ev.name + ".ics")
  }

  /** With no line break in the event's text or the timestamps, the file's text
      reads back line by line as the nine lines. */
  lemma IcsReadsBack(ev: Event, startIso: string, endIso: string)
    requires '\n' !in ev.name && '\n' !in ev.description && '\n' !in startIso && '\n' !in endIso
    ensures Split(Join(IcsLines(ev, startIso, endIso), '\n'), '\n') == IcsLines(ev, startIso, endIso)
  {
    var lines := IcsLines(ev, startIso, endIso);
    StampOnlyRemoves(startIso, '\n');
    StampOnlyRemoves(endIso, '\n');
    forall i | 0 <= i < |lines| ensures '\n' !in lines[i] {
      if i == 5 || i == 6 {
        assert lines[i] == (if i == 5 then "SUMMARY:" + ev.name else "DESCRIPTION:" + ev.description);
      }
    }
    SplitJoin(lines, '\n');
  }

  /** With well-formed ISO timestamps, DTSTART and DTEND carry the UTC DATE-TIME form. */
  lemma IcsStampsBasic(ev: Event, startIso: string, endIso: string)
    requires IsIsoUtc(startIso) && IsIsoUtc(endIso)
    ensures IsBasicUtc(IcsLines(ev, startIso, endIso)[3][|"DTSTART:"|..])
    ensures IsBasicUtc(IcsLines(ev, startIso, endIso)[4][|"DTEND:"|..])
  {
    var lines := IcsLines(ev, startIso, endIso);
    StampOfIso(startIso);
    StampOfIso(endIso);
    assert lines[3][|"DTSTART:"|..] == Stamp(startIso);
    assert lines[4][|"DTEND:"|..] == Stamp(endIso);
  }

  /** The exported file: it ends exactly one hour (3 600 000 ms) after it starts, is
      named after the event, and, when neither the event's text nor the timestamps
      hold a line break, reads back line by line as the fixed nine lines, whose
      DTSTART and DTEND are in the UTC DATE-TIME form when the timestamps are
      well-formed. */
  lemma AddToCalendarFile(ev: Event, startMs: int, toIso: int -> string)
    ensures AddToCalendar(ev, startMs, toIso).endMs == AddToCalendar(ev, startMs, toIso).startMs + 3600000
    ensures AddToCalendar(ev, startMs, toIso).fileName == ev.name + ".ics"
    ensures ('\n' !in ev.name && '\n' !in ev.description
             && '\n' !in toIso(startMs) && '\n' !in toIso(startMs + HourMs)) ==>
      Split(AddToCalendar(ev, startMs, toIso).content, '\n') == IcsLines(ev, toIso(startMs), toIso(startMs + HourMs))
    ensures IsIsoUtc(toIso(startMs)) && IsIsoUtc(toIso(startMs + HourMs)) ==>
      var lines := IcsLines(ev, toIso(startMs), toIso(startMs + HourMs));
      IsBasicUtc(lines[3][|"DTSTART:"|..]) && IsBasicUtc(lines[4][|"DTEND:"|..])
  {
    var startIso, endIso := toIso(startMs), toIso(startMs + HourMs);
    if '\n' !in ev.name && '\n' !in ev.description && '\n' !in startIso && '\n' !in endIso {
      IcsReadsBack(ev, startIso, endIso);
    }
    if IsIsoUtc(startIso) && IsIsoUtc(endIso) {
      IcsStampsBasic(ev, startIso, endIso);
    }
  }
}
