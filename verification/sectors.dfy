/** Sectors of the wellness radar: a sector is a display name and an icon
    reference, addressed by its position in the ordered list. */
module Sectors {

  datatype Sector = Sector(name: string, icon: string)

  /** The two editable fields of a sector. */
  datatype Field = Name | Icon

  /** Marker that identifies an uploaded, embedded image. */
  const DataPrefix: string := "data:"

  /** Directory against which a static icon reference is resolved. */
  const AssetBase: string := "/assets/"

  /** The icon location handed to the drawing surface: an embedded image
      is used as it is, anything else is a file under the asset directory. */
  function GetIconPath(s: Sector): (path: string)
    ensures DataPrefix <= s.icon ==> path == s.icon
    ensures !(DataPrefix <= s.icon) ==> path == AssetBase + s.icon && AssetBase <= path
    ensures DataPrefix <= path <==> DataPrefix <= s.icon
  {
    if DataPrefix <= s.icon then s.icon
    else
      assert (AssetBase + s.icon)[0] != DataPrefix[0];
      AssetBase + s.icon
  }

  /** Reads back the icon reference from a resolved icon location. */
  function IconOfPath(path: string): string {
    if DataPrefix <= path then path
    else if AssetBase <= path then path[|AssetBase|..]
    else path
  }

  /** No information is lost when an icon is resolved: the reference can be
      read back from the location, so two sectors with different icons never
      share a location. */
  lemma IconPathRoundTrip(s: Sector)
    ensures IconOfPath(GetIconPath(s)) == s.icon
  {
    if !(DataPrefix <= s.icon) {
      var path := AssetBase + s.icon;
      assert path[0] == '/';
      assert !(DataPrefix <= path);
      assert path[|AssetBase|..] == s.icon;
    }
  }

  lemma IconPathInjective(s: Sector, t: Sector)
    requires GetIconPath(s) == GetIconPath(t)
    ensures s.icon == t.icon
  {
    IconPathRoundTrip(s);
    IconPathRoundTrip(t);
  }

  function FieldOf(s: Sector, f: Field): string {
    match f
    case Name => s.name
    case Icon => s.icon
  }

  /** The sector with one field replaced (the object spread `{...s, [f]: v}`). */
  function WithField(s: Sector, f: Field, v: string): (t: Sector)
    ensures FieldOf(t, f) == v
    ensures forall g: Field :: g != f ==> FieldOf(t, g) == FieldOf(s, g)
  {
    match f
    case Name => s.(name := v)
    case Icon => s.(icon := v)
  }

  /** The sector list after editing field `f` of the sector at `index` to `v`:
      the list keeps its length, only that field of that sector changes, and
      an index outside the list changes nothing. */
  function ChangeSector(sectors: seq<Sector>, index: int, f: Field, v: string): (r: seq<Sector>)
    ensures |r| == |sectors|
    ensures forall j :: 0 <= j < |sectors| && j != index ==> r[j] == sectors[j]
    ensures 0 <= index < |sectors| ==>
              FieldOf(r[index], f) == v &&
              forall g: Field :: g != f ==> FieldOf(r[index], g) == FieldOf(sectors[index], g)
    ensures !(0 <= index < |sectors|) ==> r == sectors
  {
    seq(|sectors|, j requires 0 <= j < |sectors| =>
      if j == index then WithField(sectors[j], f, v) else sectors[j])
  }

  /** Two edits of the same field of the same sector: the later one wins. */
  lemma ChangeSectorOverwrites(sectors: seq<Sector>, index: int, f: Field, v1: string, v2: string)
    ensures ChangeSector(ChangeSector(sectors, index, f, v1), index, f, v2)
         == ChangeSector(sectors, index, f, v2)
  {
    var a := ChangeSector(ChangeSector(sectors, index, f, v1), index, f, v2);
    var b := ChangeSector(sectors, index, f, v2);
    assert |a| == |b|;
    forall j | 0 <= j < |a| ensures a[j] == b[j] {
      if j == index {
        assert FieldOf(a[j], f) == FieldOf(b[j], f);
        forall g: Field | g != f ensures FieldOf(a[j], g) == FieldOf(b[j], g) { }
        SectorByFields(a[j], b[j]);
      }
    }
  }

  /** Edits of different sectors, or of different fields, commute. */
  lemma ChangeSectorCommutes(sectors: seq<Sector>, i: int, f: Field, v: string,
                             j: int, g: Field, w: string)
    requires i != j || f != g
    ensures ChangeSector(ChangeSector(sectors, i, f, v), j, g, w)
         == ChangeSector(ChangeSector(sectors, j, g, w), i, f, v)
  {
    var a := ChangeSector(ChangeSector(sectors, i, f, v), j, g, w);
    var b := ChangeSector(ChangeSector(sectors, j, g, w), i, f, v);
    assert |a| == |b|;
    forall k | 0 <= k < |a| ensures a[k] == b[k] {
      if k == i && k == j {
        forall h: Field ensures FieldOf(a[k], h) == FieldOf(b[k], h) { }
        SectorByFields(a[k], b[k]);
      }
    }
  }

  /** A sector is determined by its two fields. */
  lemma SectorByFields(s: Sector, t: Sector)
    requires forall g: Field :: FieldOf(s, g) == FieldOf(t, g)
    ensures s == t
  {
    assert FieldOf(s, Name) == FieldOf(t, Name);
    assert FieldOf(s, Icon) == FieldOf(t, Icon);
  }
}
