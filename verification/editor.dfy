/** The editing state of the wellness radar app: a title, the sectors, the
    committed strengths that the chart shows, the preview strengths that the
    sliders show, the strength snapshots waiting on their delayed commit, and
    the icon uploads whose file read has not completed yet. Event handlers
    replace these fields; the chart is drawn from `sectors` and `strengths`
    (see RadarLayout.Layout). */
module Editor {
  import opened Sectors
  import RadarLayout

  const DefaultStrength: int := 5
  const DefaultTitle: string := "Wellness Radar"

  const DefaultSectors: seq<Sector> := [
    Sector("Bewegung", "korperundbewegung.svg"),
    Sector("Ernährung & Genuss", "ErnahrungundGenuss.svg"),
    Sector("Stress & Erholung", "StressundErholung .svg"),
    Sector("Geist & Emotion", "GeistundEmotionen.svg"),
    Sector("Lebenssinn & -qualität", "Lebenssinnundqualitat.svg"),
    Sector("Umwelt & Soziales", "UmweltundSoziales.svg")
  ]

  /** Every entry is a slider value: 0 up to the number of bars per sector. */
  predicate InRange(s: seq<int>) {
    forall j :: 0 <= j < |s| ==> 0 <= s[j] <= RadarLayout.BarCount
  }

  /** An icon upload whose file read has started: the sector it is for, and
      the sector list of the render in which it started. */
  datatype Upload = Upload(index: int, startedWith: seq<Sector>)

  class RadarEditor {
    var title: string
    var sectors: seq<Sector>
    /** The strengths the chart is drawn from. */
    var strengths: seq<int>
    /** The strengths the sliders show, updated at once on every change. */
    var preview: seq<int>
    /** Snapshots whose delayed commit has not fired yet, oldest first. All
        delays are equal, so they fire in this order. */
    var pending: seq<seq<int>>
    /** Uploads whose file read has not completed; they complete in any order. */
    var uploads: seq<Upload>

    ghost predicate Valid()
      reads this
    {
      |strengths| == |sectors| && |preview| == |sectors| &&
      InRange(strengths) && InRange(preview) &&
      (forall k :: 0 <= k < |pending| ==> |pending[k]| == |sectors| && InRange(pending[k])) &&
      (pending != [] ==> pending[|pending| - 1] == preview) &&
      (forall k :: 0 <= k < |uploads| ==> |uploads[k].startedWith| == |sectors|)
    }

    /** The app's initial state: the six default sectors, each at strength 5. */
    constructor ()
      ensures Valid()
      ensures title == DefaultTitle && sectors == DefaultSectors
      ensures |strengths| == |DefaultSectors|
      ensures forall j :: 0 <= j < |strengths| ==> strengths[j] == DefaultStrength
      ensures preview == strengths && pending == [] && uploads == []
    {
      title := DefaultTitle;
      sectors := DefaultSectors;
      strengths := seq(|DefaultSectors|, _ => DefaultStrength);
      preview := strengths;
      pending := [];
      uploads := [];
    }

    method SetTitle(t: string)
      requires Valid()
      modifies this
      ensures Valid()
      ensures title == t
      ensures sectors == old(sectors) && strengths == old(strengths)
      ensures preview == old(preview) && pending == old(pending) && uploads == old(uploads)
    {
      title := t;
    }

    /** Sets field `field` of the sector at `index` to `value` (renaming a
        sector or changing its icon); an index outside the list changes
        nothing. */
    method HandleSectorChange(index: int, field: Field, value: string)
      requires Valid()
      modifies this
      ensures Valid()
      ensures sectors == ChangeSector(old(sectors), index, field, value)
      ensures title == old(title) && strengths == old(strengths)
      ensures preview == old(preview) && pending == old(pending) && uploads == old(uploads)
    {
      sectors := ChangeSector(sectors, index, field, value);
    }

    /** A file was chosen (or not) for the icon of the sector at `index`.
        With a file, its read starts and the upload remembers the sector list
        of this moment; without one, nothing is read and nothing changes. */
    method StartIconUpload(index: int, fileChosen: bool)
      requires Valid()
      modifies this
      ensures Valid()
      ensures uploads == if fileChosen then old(uploads) + [Upload(index, old(sectors))]
                         else old(uploads)
      ensures title == old(title) && sectors == old(sectors) && strengths == old(strengths)
      ensures preview == old(preview) && pending == old(pending)
    {
      if fileChosen {
        uploads := uploads + [Upload(index, sectors)];
      }
    }

    /** The read of upload `u` completed with the data URL `dataUrl`, and the
        icon is set the way the app does it: the edit is applied to the
        sector list of the render in which the upload started, so any edit
        made since then is undone. */
    method CompleteIconUploadAsWritten(u: nat, dataUrl: string)
      requires Valid()
      requires u < |uploads|
      modifies this
      ensures Valid()
      ensures sectors == ChangeSector(old(uploads)[u].startedWith, old(uploads)[u].index, Icon, dataUrl)
      ensures uploads == old(uploads)[..u] + old(uploads)[u + 1..]
      ensures title == old(title) && strengths == old(strengths)
      ensures preview == old(preview) && pending == old(pending)
    {
      var up := uploads[u];
      sectors := ChangeSector(up.startedWith, up.index, Icon, dataUrl);
      uploads := uploads[..u] + uploads[u + 1..];
    }

    /** The read of upload `u` completed with the data URL `dataUrl`: only the
        icon of that upload's sector changes in the current sector list, so
        edits made while the file was read are kept. A data URL is then used
        as it is, not as an asset. */
    method CompleteIconUpload(u: nat, dataUrl: string)
      requires Valid()
      requires u < |uploads|
      modifies this
      ensures Valid()
      ensures sectors == ChangeSector(old(sectors), old(uploads)[u].index, Icon, dataUrl)
      ensures var i := old(uploads)[u].index;
              DataPrefix <= dataUrl && 0 <= i < |sectors| ==> GetIconPath(sectors[i]) == dataUrl
      ensures uploads == old(uploads)[..u] + old(uploads)[u + 1..]
      ensures title == old(title) && strengths == old(strengths)
      ensures preview == old(preview) && pending == old(pending)
    {
      var up := uploads[u];
      sectors := ChangeSector(sectors, up.index, Icon, dataUrl);
      uploads := uploads[..u] + uploads[u + 1..];
    }

    /** The strength slider of sector `i` moved to `value`: the preview is
        copied with entry `i` replaced, shown at once, and a commit of that
        copy is scheduled. The committed strengths do not change yet. */
    method SlideStrength(i: nat, value: int)
      requires Valid()
      requires i < |sectors| && 0 <= value <= RadarLayout.BarCount
      modifies this
      ensures Valid()
      ensures preview == old(preview)[i := value]
      ensures pending == old(pending) + [preview]
      ensures strengths == old(strengths)
      ensures title == old(title) && sectors == old(sectors) && uploads == old(uploads)
    {
      var newStrengths := preview;
      newStrengths := newStrengths[i := value];
      preview := newStrengths;
      pending := pending + [newStrengths];
    }

    /** The oldest scheduled commit fires and its snapshot becomes the
        committed strengths. Once no commit is left, the chart shows exactly
        what the sliders show: the last slider change wins. */
    method FireTimer()
      requires Valid()
      requires pending != []
      modifies this
      ensures Valid()
      ensures strengths == old(pending)[0] && pending == old(pending)[1..]
      ensures pending == [] ==> strengths == preview
      ensures title == old(title) && sectors == old(sectors) && preview == old(preview)
      ensures uploads == old(uploads)
    {
      strengths := pending[0];
      pending := pending[1..];
    }
  }

  /** Sector 1 is renamed while an icon for sector 0 is being read. When the
      read completes, the app puts back sector 1's old name. */
  method StaleUploadScenario() returns (renamedTo: string, nameAfter: string)
    ensures renamedTo == "X" && nameAfter == DefaultSectors[1].name && nameAfter != renamedTo
  {
    var e := new RadarEditor();
    e.StartIconUpload(0, true);
    assert e.uploads == [Upload(0, DefaultSectors)];
    e.HandleSectorChange(1, Name, "X");
    renamedTo := e.sectors[1].name;
    e.CompleteIconUploadAsWritten(0, "data:image/png;base64,AA==");
    assert e.sectors[1] == DefaultSectors[1];
    nameAfter := e.sectors[1].name;
    assert nameAfter[0] != renamedTo[0];
  }

  /** The same events with the corrected completion: the rename survives and
      sector 0 shows the uploaded image. */
  method CorrectedUploadScenario() returns (nameAfter: string, iconPath: string)
    ensures nameAfter == "X" && iconPath == "data:image/png;base64,AA=="
  {
    var e := new RadarEditor();
    e.StartIconUpload(0, true);
    e.HandleSectorChange(1, Name, "X");
    e.CompleteIconUpload(0, "data:image/png;base64,AA==");
    nameAfter := e.sectors[1].name;
    iconPath := GetIconPath(e.sectors[0]);
  }
}
