/** The study timer page: a stopwatch counting whole seconds, an optional
    session label and a list of saved study records, newest first. */
module PageTimer {
  import opened Wrappers
  import opened Text
  import Seqs

  /** One saved study session. */
  datatype Record = Record(id: string, duration: nat, date: string, sessionLabel: string)

  /** The count of seconds in a span of hours, minutes and seconds. */
  function Seconds(hours: nat, minutes: nat, secs: nat): nat {
    hours * 3600 + minutes * 60 + secs
  }

  /** Hours, minutes and seconds of a count of seconds, as `formatTime`
      computes them with `Math.floor` and `%` (exact here: the count is never
      negative). */
  function Clock(totalSeconds: nat): (r: (nat, nat, nat))
    ensures Seconds(r.0, r.1, r.2) == totalSeconds
    ensures r.1 < 60 && r.2 < 60
  {
    var hours, rest := totalSeconds / 3600, totalSeconds % 3600;
    var minutes, secs := rest / 60, rest % 60;
    assert totalSeconds == hours * 3600 + rest && rest == minutes * 60 + secs;
    assert secs == totalSeconds % 60 by {
      assert totalSeconds == (hours * 60 + minutes) * 60 + secs;
    }
    (hours, minutes, secs)
  }

  /** One field of the display: the number's decimal digits, left-padded with
      '0' to at least two characters. */
  function Field(n: nat): string {
    PadStart(Digits(n), 2, '0')
  }

  /** The display of an hours, minutes, seconds triple: the three fields
      joined by colons. */
  function ClockText(c: (nat, nat, nat)): string {
    Field(c.0) + ":" + Field(c.1) + ":" + Field(c.2)
  }

  /** `formatTime`: "HH:MM:SS", hours never truncated. The display is at
      least eight characters, exactly eight below 100 hours, and reads back
      as the count it shows. */
  function FormatTime(totalSeconds: nat): (r: string)
    ensures |r| >= 8
    ensures |r| == 8 <==> totalSeconds < 360000
    ensures ParseTime(r) == Some(totalSeconds)
    ensures '0' <= r[|r| - 5] <= '5' && IsDigit(r[|r| - 4])
    ensures '0' <= r[|r| - 2] <= '5' && IsDigit(r[|r| - 1])
    ensures |r| > 8 ==> r[0] != '0'
  {
    var c := Clock(totalSeconds);
    ClockTextSpec(c);
    ClockText(c)
  }

  /** What `FormatTime` promises, for any triple with minutes and seconds
      below 60, in terms of the count the triple stands for. */
  lemma ClockTextSpec(c: (nat, nat, nat))
    requires c.1 < 60 && c.2 < 60
    ensures var r, t := ClockText(c), Seconds(c.0, c.1, c.2);
            |r| >= 8 && (|r| == 8 <==> t < 360000) && ParseTime(r) == Some(t)
            && '0' <= r[|r| - 5] <= '5' && IsDigit(r[|r| - 4])
            && '0' <= r[|r| - 2] <= '5' && IsDigit(r[|r| - 1])
            && (|r| > 8 ==> r[0] != '0')
  {
    ClockTextLength(c);
    ClockTextRoundTrip(c);
    ClockTextFields(c);
  }

  /** Reads a display string back into a count of seconds: the last five
      characters are "MM:SS", everything before the second colon from the end
      is the hour field. */
  function ParseTime(t: string): Option<nat> {
    if |t| < 8 || t[|t| - 3] != ':' || t[|t| - 6] != ':' then None
    else ParseFields(t[..|t| - 6], t[|t| - 5..|t| - 3], t[|t| - 2..])
  }

  function ParseFields(h: string, m: string, s: string): Option<nat> {
    if AllDigits(h) && AllDigits(m) && AllDigits(s)
    then Some(Seconds(ParseDecimal(h), ParseDecimal(m), ParseDecimal(s)))
    else None
  }

  /** Where the fields of a colon-joined display sit: the hour field before
      the second colon from the end, then two two-character fields. */
  lemma JoinedFieldsSplit(fh: string, fm: string, fs: string)
    requires |fm| == 2 && |fs| == 2
    ensures var t := fh + ":" + fm + ":" + fs;
            |t| == |fh| + 6 && t[..|t| - 6] == fh && t[|t| - 5..|t| - 3] == fm && t[|t| - 2..] == fs
            && t[|t| - 3] == ':' && t[|t| - 6] == ':'
  {
    var u1 := fh + ":";
    var u2 := u1 + fm;
    var u3 := u2 + ":";
    var t := u3 + fs;
    assert t[..|u3|] == u3 && t[|u3|..] == fs;
    assert u3[..|u2|] == u2 && u2[..|u1|] == u1 && u2[|u1|..] == fm;
    assert t[..|t| - 6] == fh by {
      assert t[..|fh|] == u3[..|fh|] == u2[..|fh|] == u1[..|fh|];
    }
    assert t[|t| - 5..|t| - 3] == fm by {
      assert t[|u1|..|u2|] == u3[|u1|..|u2|] == u2[|u1|..];
    }
    assert t[|t| - 3] == ':' && t[|t| - 6] == ':';
  }

  /** Three digit fields joined by colons split back into the same fields. */
  lemma ParseJoinedFields(fh: string, fm: string, fs: string)
    requires AllDigits(fh) && AllDigits(fm) && AllDigits(fs)
    requires |fh| >= 2 && |fm| == 2 && |fs| == 2
    ensures ParseTime(fh + ":" + fm + ":" + fs)
            == Some(Seconds(ParseDecimal(fh), ParseDecimal(fm), ParseDecimal(fs)))
  {
    JoinedFieldsSplit(fh, fm, fs);
  }

  /** A two-digit field worth less than 60 starts with a digit from '0' to
      '5'. */
  lemma BelowSixty(f: string)
    requires |f| == 2 && AllDigits(f) && ParseDecimal(f) < 60
    ensures '0' <= f[0] <= '5' && IsDigit(f[1])
  {
    assert f[..1][..0] == [];
    assert ParseDecimal(f) == DigitValue(f[0]) * 10 + DigitValue(f[1]);
  }

  /** The printed form of the display: the minute and second fields are two
      digits each starting with '0' to '5', and an hour field longer than two
      characters has no leading zero. */
  lemma ClockTextFields(c: (nat, nat, nat))
    requires c.1 < 60 && c.2 < 60
    ensures var r := ClockText(c);
            |r| >= 8
            && '0' <= r[|r| - 5] <= '5' && IsDigit(r[|r| - 4])
            && '0' <= r[|r| - 2] <= '5' && IsDigit(r[|r| - 1])
            && (|r| > 8 ==> r[0] != '0')
  {
    var fh, fm, fs := Field(c.0), Field(c.1), Field(c.2);
    FieldBelow60(c.1);
    FieldBelow60(c.2);
    PadZeroParses(c.1);
    PadZeroParses(c.2);
    BelowSixty(fm);
    BelowSixty(fs);
    JoinedFieldsSplit(fh, fm, fs);
    var r := ClockText(c);
    assert r[|r| - 5] == fm[0] && r[|r| - 4] == fm[1] by {
      assert r[|r| - 5..|r| - 3] == fm;
    }
    assert r[|r| - 2] == fs[0] && r[|r| - 1] == fs[1] by {
      assert r[|r| - 2..] == fs;
    }
    if |r| > 8 {
      var d := Digits(c.0);
      assert |fh| > 2;
      assert fh == d by {
        assert |fh| == |d|;
      }
      assert r[0] == fh[0] by {
        assert r[..|r| - 6] == fh;
      }
    }
  }

  /** Minutes and seconds always take exactly two characters. */
  lemma FieldBelow60(n: nat)
    requires n < 60
    ensures |Field(n)| == 2
  {
  }

  /** With minutes and seconds below 60 the display is at least eight
      characters long, and exactly eight if and only if the hours fit in two
      digits; beyond that the hour field grows. */
  lemma ClockTextLength(c: (nat, nat, nat))
    requires c.1 < 60 && c.2 < 60
    ensures |ClockText(c)| >= 8
    ensures |ClockText(c)| == 8 <==> Seconds(c.0, c.1, c.2) < 360000
  {
    FieldBelow60(c.1);
    FieldBelow60(c.2);
    assert |Field(c.0)| == 2 <==> c.0 < 100;
    assert c.0 < 100 <==> Seconds(c.0, c.1, c.2) < 360000 by {
      if c.0 >= 100 {
        assert c.0 * 3600 >= 360000;
      }
    }
  }

  /** Reading the display back recovers the count of seconds. */
  lemma ClockTextRoundTrip(c: (nat, nat, nat))
    requires c.1 < 60 && c.2 < 60
    ensures ParseTime(ClockText(c)) == Some(Seconds(c.0, c.1, c.2))
  {
    var fh, fm, fs := Field(c.0), Field(c.1), Field(c.2);
    assert AllDigits(fh) && ParseDecimal(fh) == c.0 && |fh| >= 2 by {
      PadZeroParses(c.0);
    }
    assert AllDigits(fm) && ParseDecimal(fm) == c.1 && |fm| == 2 by {
      PadZeroParses(c.1);
      FieldBelow60(c.1);
    }
    assert AllDigits(fs) && ParseDecimal(fs) == c.2 && |fs| == 2 by {
      PadZeroParses(c.2);
      FieldBelow60(c.2);
    }
    ParseJoinedFields(fh, fm, fs);
  }

  /** Distinct counts give distinct displays. */
  lemma FormatTimeInjective(a: nat, b: nat)
    requires FormatTime(a) == FormatTime(b)
    ensures a == b
  {
    assert Some(a) == ParseTime(FormatTime(a)) == ParseTime(FormatTime(b)) == Some(b);
  }

  /** The label a saved record gets: the typed label, or "Study Session n"
      numbering it after the records already saved when none was typed (the
      `||` fallback treats only the empty string as missing). */
  function RecordLabel(typed: string, saved: nat): (r: string)
    ensures typed != "" ==> r == typed
    ensures typed == "" ==> |r| > 14 && r[..14] == "Study Session "
                            && AllDigits(r[14..]) && ParseDecimal(r[14..]) == saved + 1
                            && r[14] != '0'
  {
    ParseDigits(saved + 1);
    assert Digits(saved + 1)[0] != '0';
    if typed == "" then
      var r := "Study Session " + Digits(saved + 1);
      assert r[14..] == Digits(saved + 1);
      r
    else typed
  }

  /** Default labels number the sessions apart: two saves without a typed
      label at different list lengths never get the same label. The number
      follows the list's length, not a counter, so after a deletion a later
      save can repeat an earlier default label: from "Study Session 2" and
      "Study Session 1", deleting the second and saving again gives a second
      "Study Session 2". */
  lemma DefaultLabelsDistinct(a: nat, b: nat)
    requires RecordLabel("", a) == RecordLabel("", b)
    ensures a == b
  {
    var prefix := "Study Session ";
    var da, db := Digits(a + 1), Digits(b + 1);
    assert da == db by {
      var la, lb := prefix + da, prefix + db;
      assert la == RecordLabel("", a) && lb == RecordLabel("", b);
      assert la[|prefix|..] == da && lb[|prefix|..] == db;
    }
    ParseDigits(a + 1);
    ParseDigits(b + 1);
  }

  /** `records.filter(record => record.id !== id)`. */
  function WithoutRecord(records: seq<Record>, id: string): (r: seq<Record>)
    ensures |r| <= |records|
    ensures forall i :: 0 <= i < |r| ==> r[i].id != id && r[i] in records
    ensures forall i :: 0 <= i < |records| && records[i].id != id ==> records[i] in r
  {
    Seqs.Filter(records, (r: Record) => r.id != id)
  }

  /** Deleting keeps exactly the records with another id, in their order. */
  lemma WithoutRecordSpec(records: seq<Record>, id: string)
    ensures forall i :: 0 <= i < |WithoutRecord(records, id)| ==> WithoutRecord(records, id)[i].id != id
    ensures forall i :: 0 <= i < |records| && records[i].id != id ==> records[i] in WithoutRecord(records, id)
    ensures (forall i :: 0 <= i < |records| ==> records[i].id != id) ==> WithoutRecord(records, id) == records
  {
    if forall i :: 0 <= i < |records| ==> records[i].id != id {
      Seqs.FilterKeepsAll(records, (r: Record) => r.id != id);
    }
  }

  /** The timer's component state. The interval that drives `Tick`, the
      clock that stamps ids and dates, and storage are outside the model. */
  class Timer {
    var isRunning: bool
    var seconds: nat
    var sessionLabel: string
    var records: seq<Record>

    /** Mount: stopped at zero with the records read back from storage. */
    constructor (saved: seq<Record>)
      ensures !isRunning && seconds == 0 && sessionLabel == "" && records == saved
    {
      isRunning := false;
      seconds := 0;
      sessionLabel := "";
      records := saved;
    }

    /** `toggleTimer`: start or pause. */
    method Toggle()
      modifies this
      ensures isRunning == !old(isRunning)
      ensures seconds == old(seconds) && sessionLabel == old(sessionLabel) && records == old(records)
    {
      isRunning := !isRunning;
    }

    /** One firing of the one-second interval, which exists only while the
        timer runs. */
    method Tick()
      modifies this
      ensures seconds == if old(isRunning) then old(seconds) + 1 else old(seconds)
      ensures isRunning == old(isRunning) && sessionLabel == old(sessionLabel) && records == old(records)
    {
      if isRunning {
        seconds := seconds + 1;
      }
    }

    /** Typing a label; the input is disabled while the timer runs. */
    method SetLabel(text: string)
      requires !isRunning
      modifies this
      ensures sessionLabel == text
      ensures isRunning == old(isRunning) && seconds == old(seconds) && records == old(records)
    {
      sessionLabel := text;
    }

    /** `resetTimer`: stop, zero the count and clear the label. */
    method Reset()
      modifies this
      ensures !isRunning && seconds == 0 && sessionLabel == ""
      ensures records == old(records)
    {
      isRunning := false;
      seconds := 0;
      sessionLabel := "";
    }

    /** `saveRecord`: refuse a zero count; otherwise put a record of the
        count in front of the list and reset. `id` and `date` stand for the
        clock readings the source takes. */
    method SaveRecord(id: string, date: string) returns (saved: bool)
      modifies this
      ensures saved <==> old(seconds) != 0
      ensures !saved ==> isRunning == old(isRunning) && seconds == old(seconds)
                         && sessionLabel == old(sessionLabel) && records == old(records)
      ensures saved ==> records == [Record(id, old(seconds), date, RecordLabel(old(sessionLabel), |old(records)|))] + old(records)
      ensures saved ==> !isRunning && seconds == 0 && sessionLabel == ""
    {
      if seconds == 0 {
        return false;
      }
      var newRecord := Record(id, seconds, date, RecordLabel(sessionLabel, |records|));
      records := [newRecord] + records;
      Reset();
      saved := true;
    }

    /** `deleteRecord`: drop every record with this id. */
    method DeleteRecord(id: string)
      modifies this
      ensures records == WithoutRecord(old(records), id)
      ensures isRunning == old(isRunning) && seconds == old(seconds) && sessionLabel == old(sessionLabel)
    {
      records := WithoutRecord(records, id);
    }
  }
}
