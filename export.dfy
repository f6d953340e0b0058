/**
 * The text file `download_report` writes (medvi.py:130-132): a two-line header
 * naming the patient, a blank line, then the report as read from the text box.
 * `ParseExport` reads such a file back; the round trip shows the rendering
 * loses nothing when the identifiers are single-line.
 */
module Export {
  import opened Wrappers

  const IdLabel: string := "Patient ID: "
  const PhoneLabel: string := "Phone: "

  /** The file content for a patient, a phone number and the report body. */
  function ExportText(patientId: string, phoneNumber: string, body: string): (r: string)
    ensures |r| == |IdLabel| + |patientId| + |PhoneLabel| + |phoneNumber| + 3 + |body|
    ensures r[..|IdLabel|] == IdLabel
    ensures r[|r| - |body|..] == body
  {
    IdLabel + patientId + "\n" + PhoneLabel + phoneNumber + "\n\n" + body
  }

  datatype Exported = Exported(patientId: string, phoneNumber: string, body: string)

  /** Splits at the first newline: the line before it and everything after. */
  function SplitLine(s: string): (r: Option<(string, string)>)
    ensures r.None? <==> '\n' !in s
    ensures r.Some? ==> '\n' !in r.value.0 && s == r.value.0 + "\n" + r.value.1
  {
    if s == [] then None
    else if s[0] == '\n' then Some(([], s[1..]))
    else
      match SplitLine(s[1..])
      case None => None
      case Some((line, rest)) => Some(([s[0]] + line, rest))
  }

  /** Reads back a file in the export format, if it is one. */
  function ParseExport(f: string): Option<Exported> {
    match SplitLine(f)
    case None => None
    case Some((first, afterFirst)) =>
      if |first| < |IdLabel| || first[..|IdLabel|] != IdLabel then None
      else
        match SplitLine(afterFirst)
        case None => None
        case Some((second, afterSecond)) =>
          if |second| < |PhoneLabel| || second[..|PhoneLabel|] != PhoneLabel then None
          else if afterSecond == [] || afterSecond[0] != '\n' then None
          else Some(Exported(first[|IdLabel|..], second[|PhoneLabel|..], afterSecond[1..]))
  }

  /** The first newline of `line + "\n" + rest` is the one after `line`. */
  lemma {:induction false} SplitLineAt(line: string, rest: string)
    requires '\n' !in line
    ensures SplitLine(line + "\n" + rest) == Some((line, rest))
  {
    var s := line + "\n" + rest;
    if line == [] {
      assert s[1..] == rest;
    } else {
      assert s[0] == line[0];
      assert s[1..] == line[1..] + "\n" + rest;
      SplitLineAt(line[1..], rest);
      assert [line[0]] + line[1..] == line;
    }
  }

  /** An exported file gives back the patient id, the phone number and the
      body it was rendered from, provided neither identifier spans lines. */
  lemma ExportRoundTrip(patientId: string, phoneNumber: string, body: string)
    requires '\n' !in patientId && '\n' !in phoneNumber
    ensures ParseExport(ExportText(patientId, phoneNumber, body)) == Some(Exported(patientId, phoneNumber, body))
  {
    var first := IdLabel + patientId;
    var second := PhoneLabel + phoneNumber;
    var afterSecond := "\n" + body;
    var afterFirst := second + "\n" + afterSecond;
    assert '\n' !in first by {
      forall i | 0 <= i < |first| ensures first[i] != '\n' {
        if i >= |IdLabel| { assert first[i] == patientId[i - |IdLabel|]; }
      }
    }
    assert '\n' !in second by {
      forall i | 0 <= i < |second| ensures second[i] != '\n' {
        if i >= |PhoneLabel| { assert second[i] == phoneNumber[i - |PhoneLabel|]; }
      }
    }
    assert ExportText(patientId, phoneNumber, body) == first + "\n" + afterFirst;
    SplitLineAt(first, afterFirst);
    SplitLineAt(second, afterSecond);
    assert first[..|IdLabel|] == IdLabel && first[|IdLabel|..] == patientId;
    assert second[..|PhoneLabel|] == PhoneLabel && second[|PhoneLabel|..] == phoneNumber;
    assert afterSecond[1..] == body;
  }
}
