/**
 * The record viewer: the per-row column logic handed to the table and the
 * `data` state the one-shot read fills in.
 */
module FetchData {
  import opened Wrappers
  import opened Builtins
  import opened Types
  import Utils

  // ---------------------------------------------------------------------
  // Batch column

  /** The Batch comparator `a.batch - b.batch`. */
  function BatchSorter(a: Data, b: Data): (r: int)
    ensures r < 0 <==> a.batch < b.batch
    ensures r == 0 <==> a.batch == b.batch
    ensures r > 0 <==> a.batch > b.batch
  {
    a.batch - b.batch
  }

  /** Swapping the arguments negates the comparison. */
  lemma BatchSorterAntisymmetric(a: Data, b: Data)
    ensures BatchSorter(a, b) == -BatchSorter(b, a)
  {
  }

  /** "Not after" under the comparator is transitive and total. */
  lemma BatchSorterTotalPreorder(a: Data, b: Data, c: Data)
    ensures BatchSorter(a, b) <= 0 || BatchSorter(b, a) <= 0
    ensures BatchSorter(a, b) <= 0 && BatchSorter(b, c) <= 0 ==> BatchSorter(a, c) <= 0
  {
  }

  // ---------------------------------------------------------------------
  // Name column

  /** The filter values the Name column offers. */
  const NameFilterValues: seq<string> := ["Krys", "Ezra"]

  /** The Name filter `record.name.startsWith(value)`, case-sensitive. */
  function NameFilter(value: string, record: Data): (keep: bool)
    ensures keep <==> |value| <= |record.name| && record.name[..|value|] == value
  {
    StartsWith(record.name, value)
  }

  /** A record is kept by the empty value, by its own name, and by every prefix of its name. */
  lemma NameFilterPrefixes(record: Data, k: nat)
    requires k <= |record.name|
    ensures NameFilter("", record)
    ensures NameFilter(record.name, record)
    ensures NameFilter(record.name[..k], record)
  {
  }

  /**
   * The filter does not fold case: "ezra" does not keep a record named
   * "Ezra", and of the offered values only "Ezra" keeps it.
   */
  lemma NameFilterCaseSensitive(record: Data)
    requires record.name == "Ezra"
    ensures NameFilter("Ezra", record)
    ensures !NameFilter("ezra", record)
    ensures forall v :: v in NameFilterValues ==> (NameFilter(v, record) <==> v == "Ezra")
  {
  }

  // ---------------------------------------------------------------------
  // Certifications column

  const GeekblueColor := "geekblue"
  /** The label of a certificate that is missing or empty. */
  const IncompleteLabel := "Incompleted"

  /** One rendered tag: its colour and its text. */
  datatype Tag = Tag(color: string, text: string)

  /** The tag for one certificate field, given that field's "complete" colour. */
  function CertificateTag(field: Option<string>, completeColor: string): (t: Tag)
    ensures t.color == (if Truthy(field) then completeColor else Utils.VolcanoColor)
    ensures Truthy(field) ==> t.text == field.value
    ensures !Truthy(field) ==> t.text == IncompleteLabel
  {
    Tag(if Truthy(field) then completeColor else Utils.VolcanoColor, OrElse(field, IncompleteLabel))
  }

  /** The Certifications cell: english, scrum and cyberSecurity tags, in that order. */
  function CertificateTags(c: Certificates): (tags: seq<Tag>)
    ensures |tags| == 3
    ensures tags[0].color == GeekblueColor <==> Truthy(c.english)
    ensures tags[0].color == Utils.VolcanoColor <==> !Truthy(c.english)
    ensures tags[1].color == Utils.CyanColor <==> Truthy(c.scrum)
    ensures tags[1].color == Utils.VolcanoColor <==> !Truthy(c.scrum)
    ensures tags[2].color == Utils.GreenColor <==> Truthy(c.cyberSecurity)
    ensures tags[2].color == Utils.VolcanoColor <==> !Truthy(c.cyberSecurity)
    ensures tags[0].text == if Truthy(c.english) then c.english.value else IncompleteLabel
    ensures tags[1].text == if Truthy(c.scrum) then c.scrum.value else IncompleteLabel
    ensures tags[2].text == if Truthy(c.cyberSecurity) then c.cyberSecurity.value else IncompleteLabel
  {
    [ CertificateTag(c.english, GeekblueColor),
      CertificateTag(c.scrum, Utils.CyanColor),
      CertificateTag(c.cyberSecurity, Utils.GreenColor) ]
  }

  /**
   * The inline colours agree with the shared helper's for scrum and
   * cyberSecurity; for english they agree exactly when the certificate is
   * incomplete, the inline "complete" colour being geekblue, not default.
   */
  lemma CertificateTagsAgainstHelper(c: Certificates)
    ensures var helper := Utils.CustomTagBgColor(Utils.CertificateFlags(c.english, c.scrum, c.cyberSecurity));
      && CertificateTags(c)[1].color == helper.scrumColor
      && CertificateTags(c)[2].color == helper.cyberSecurityColor
      && (CertificateTags(c)[0].color == helper.englishColor <==> !Truthy(c.english))
  {
  }

  /** A volcano tag always reads "Incompleted"; any other tag shows the stored value. */
  lemma CertificateTagLabelFollowsColor(c: Certificates, i: nat)
    requires i < 3
    ensures var tag := CertificateTags(c)[i];
      var field := [c.english, c.scrum, c.cyberSecurity][i];
      && (tag.color == Utils.VolcanoColor ==> tag.text == IncompleteLabel)
      && (tag.color != Utils.VolcanoColor ==> field.Some? && tag.text == field.value != "")
  {
  }

  // ---------------------------------------------------------------------
  // Grades dialog

  const PositiveColor := "#306317"
  const NegativeColor := "#d32029"

  /** The chip background: positive only for a score strictly above zero. */
  function GradeChipColor(score: int): (color: string)
    ensures color == PositiveColor <==> score > 0
    ensures color == NegativeColor <==> score <= 0
  {
    if score > 0 then PositiveColor else NegativeColor
  }

  /** The chip label "Test" + `key.slice(4, 6)`. */
  function ChipLabel(key: string): (text: string)
    ensures |text| == 4 + (if |key| <= 4 then 0 else Min(6, |key|) - 4)
    ensures text[..4] == "Test"
    ensures forall i :: 4 <= i < |text| ==> text[i] == key[i]
  {
    "Test" + Slice(key, 4, 6)
  }

  /** One chip of the dialog: label, background colour and the score shown. */
  datatype Chip = Chip(text: string, color: string, score: int)

  /** `Object.entries(record.grades).map(...)`: one chip per entry, in entry order. */
  function GradeChips(grades: seq<GradeEntry>): (chips: seq<Chip>)
    ensures |chips| == |grades|
    ensures forall i :: 0 <= i < |grades| ==>
      chips[i] == Chip(ChipLabel(grades[i].key), GradeChipColor(grades[i].score), grades[i].score)
  {
    if grades == [] then []
    else
      var head := Chip(ChipLabel(grades[0].key), GradeChipColor(grades[0].score), grades[0].score);
      [head] + GradeChips(grades[1..])
  }

  /** The labels of the declared period keys: the two "w" keys yield a single digit. */
  lemma DeclaredKeyLabels(d: Data)
    requires HasDeclaredGradeKeys(d)
    ensures var chips := GradeChips(d.grades);
      && chips[0].text == "Test2" && chips[1].text == "Test4"
      && chips[2].text == "Test05" && chips[3].text == "Test07"
      && chips[4].text == "Test09" && chips[5].text == "Test11"
  {
  }

  /** One record with english "B2", no other certificate and six scores, rendered. */
  lemma SingleRecordScenario(d: Data)
    requires d.grades == [GradeEntry("w0102", 10), GradeEntry("w0304", 20),
                          GradeEntry("week0506", 0), GradeEntry("week0708", -5),
                          GradeEntry("week0910", 15), GradeEntry("week1112", 5)]
    requires d.certificates == Certificates(Some("B2"), None, None)
    ensures CertificateTags(d.certificates)
         == [Tag(GeekblueColor, "B2"), Tag(Utils.VolcanoColor, IncompleteLabel), Tag(Utils.VolcanoColor, IncompleteLabel)]
    ensures var chips := GradeChips(d.grades);
      && |chips| == 6
      && chips[0].color == PositiveColor && chips[1].color == PositiveColor
      && chips[2].color == NegativeColor && chips[3].color == NegativeColor
      && chips[4].color == PositiveColor && chips[5].color == PositiveColor
  {
  }

  // ---------------------------------------------------------------------
  // The data state

  /** The component's `data` state, filled by the one-shot read of `students`. */
  class RecordViewer {
    var data: seq<Data>

    /** The state starts as the empty list. */
    constructor ()
      ensures data == []
    {
      data := [];
    }

    /**
     * The read settles with `snapshot`: `Some` when it exists, `None` when
     * it does not. Only an existing snapshot replaces the data; otherwise
     * the data stays and the console line is returned.
     */
    method OnSnapshot(snapshot: Option<seq<Data>>) returns (consoleLine: Option<string>)
      modifies this
      ensures snapshot.Some? ==> data == snapshot.value && consoleLine == None
      ensures snapshot.None? ==> data == old(data) && consoleLine == Some("No data available")
    {
      if snapshot.Some? {
        data := snapshot.value;
        consoleLine := None;
      } else {
        consoleLine := Some("No data available");
      }
    }
  }

  /** Mounting reads once: the rows are the snapshot when it exists, else none. */
  method Mount(snapshot: Option<seq<Data>>) returns (viewer: RecordViewer)
    ensures fresh(viewer)
    ensures viewer.data == if snapshot.Some? then snapshot.value else []
  {
    viewer := new RecordViewer();
    var _ := viewer.OnSnapshot(snapshot);
  }
}
