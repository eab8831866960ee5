/**
 * The device size presets of apps/playground/src/config/devices.ts and their two lookups.
 */
module Devices {
  import opened Wrappers
  import opened Sequences

  datatype DeviceCategory = Iphone | Ipad | Android | Custom

  datatype DevicePreset = DevicePreset(id: string, name: string, width: int, height: int,
                                       category: DeviceCategory, description: string)

  /** The iPhone entries of `devicePresets`, listed first. */
  const Phones: seq<DevicePreset> := [
    DevicePreset("iphone-6.7", "iPhone 6.7\"", 1290, 2796, Iphone, "iPhone 14 Pro Max, 15 Pro Max"),
    DevicePreset("iphone-6.5", "iPhone 6.5\"", 1242, 2688, Iphone, "iPhone 11 Pro Max, XS Max"),
    DevicePreset("iphone-6.1", "iPhone 6.1\"", 1179, 2556, Iphone, "iPhone 14 Pro, 15 Pro"),
    DevicePreset("iphone-5.5", "iPhone 5.5\"", 1242, 2208, Iphone, "iPhone 6/7/8 Plus"),
    DevicePreset("iphone-5.4", "iPhone 5.4\"", 1080, 2340, Iphone, "iPhone 12/13 mini")]

  /** The iPad entries, listed next. */
  const Tablets: seq<DevicePreset> := [
    DevicePreset("ipad-12.9", "iPad 12.9\"", 2048, 2732, Ipad, "iPad Pro 12.9\""),
    DevicePreset("ipad-11", "iPad 11\"", 1668, 2388, Ipad, "iPad Pro 11\""),
    DevicePreset("ipad-10.9", "iPad 10.9\"", 1640, 2360, Ipad, "iPad Air")]

  /** The Android entries, listed last. */
  const Androids: seq<DevicePreset> := [
    DevicePreset("android-phone", "Android 手机", 1080, 1920, Android, "通用 Android 手机 (16:9)"),
    DevicePreset("android-phone-tall", "Android 全面屏", 1080, 2340, Android, "Android 全面屏 (19.5:9)"),
    DevicePreset("android-tablet", "Android 平板", 1600, 2560, Android, "Android 平板 10\"")]

  /** `devicePresets`: the whole catalogue in source order. */
  const DevicePresets: seq<DevicePreset> := Phones + (Tablets + Androids)

  /** `getDeviceById(id)` */
  function GetDeviceById(id: string): (r: Option<DevicePreset>)
    ensures r.Some? <==> exists i :: 0 <= i < |DevicePresets| && DevicePresets[i].id == id
    ensures r.Some? ==> r.value in DevicePresets && r.value.id == id
  {
    Find(DevicePresets, (d: DevicePreset) => d.id == id)
  }

  /** `getDevicesByCategory(category)` */
  function GetDevicesByCategory(category: DeviceCategory): (r: seq<DevicePreset>)
    ensures forall i :: 0 <= i < |r| ==> r[i] in DevicePresets && r[i].category == category
    ensures forall i :: 0 <= i < |DevicePresets| && DevicePresets[i].category == category ==> DevicePresets[i] in r
  {
    Filter(DevicePresets, OfCategory(category))
  }

  function OfCategory(category: DeviceCategory): DevicePreset -> bool
  {
    (d: DevicePreset) => d.category == category
  }

  /** Eleven presets, every one in portrait: `0 < width < height`. */
  lemma DevicePresetsPortrait()
    ensures |DevicePresets| == 11
    ensures forall d :: d in DevicePresets ==> 0 < d.width < d.height
  {
  }

  /** Preset ids are pairwise distinct. */
  lemma DeviceIdsUnique()
    ensures forall i, j :: 0 <= i < j < |DevicePresets| ==> DevicePresets[i].id != DevicePresets[j].id
  {
  }

  lemma FilterThirds(c: DeviceCategory)
    ensures Filter(Phones + (Tablets + Androids), OfCategory(c))
         == Filter(Phones, OfCategory(c)) + Filter(Tablets, OfCategory(c)) + Filter(Androids, OfCategory(c))
  {
    FilterThree(Phones, Tablets, Androids, OfCategory(c));
  }

  /** The catalogue is listed as five iPhones, then three iPads, then three Android devices. */
  lemma ByCategory(c: DeviceCategory)
    ensures GetDevicesByCategory(c)
         == Filter(Phones, OfCategory(c)) + Filter(Tablets, OfCategory(c)) + Filter(Androids, OfCategory(c))
  {
    FilterThirds(c);
  }

  /** A run of presets all of category `run` filters to itself for `run` and to nothing otherwise. */
  lemma FilterRun(xs: seq<DevicePreset>, run: DeviceCategory, c: DeviceCategory)
    requires forall i :: 0 <= i < |xs| ==> xs[i].category == run
    ensures Filter(xs, OfCategory(c)) == if c == run then xs else []
  {
    if c == run {
      FilterAll(xs, OfCategory(c));
    } else {
      FilterNone(xs, OfCategory(c));
    }
  }

  lemma PhonesFilter(c: DeviceCategory)
    ensures Filter(Phones, OfCategory(c)) == if c == Iphone then Phones else []
  {
    assert Phones[0].category == Phones[1].category == Phones[2].category == Iphone;
    assert Phones[3].category == Phones[4].category == Iphone;
    FilterRun(Phones, Iphone, c);
  }

  lemma TabletsFilter(c: DeviceCategory)
    ensures Filter(Tablets, OfCategory(c)) == if c == Ipad then Tablets else []
  {
    assert Tablets[0].category == Tablets[1].category == Tablets[2].category == Ipad;
    FilterRun(Tablets, Ipad, c);
  }

  lemma AndroidsFilter(c: DeviceCategory)
    ensures Filter(Androids, OfCategory(c)) == if c == Android then Androids else []
  {
    assert Androids[0].category == Androids[1].category == Androids[2].category == Android;
    FilterRun(Androids, Android, c);
  }

  /**
   * `getDevicesByCategory` returns exactly the run of its category: the five iPhones, the
   * three iPads, the three Android devices, and nothing for the custom category.
   */
  lemma DevicesOfCategory(c: DeviceCategory)
    ensures GetDevicesByCategory(c) == match c
      case Iphone => Phones
      case Ipad => Tablets
      case Android => Androids
      case Custom => []
  {
    RunsOf(c);
    OnlyOne(if c == Iphone then Phones else [], if c == Ipad then Tablets else [],
            if c == Android then Androids else []);
  }

  /** Each run contributes itself for its own category and nothing otherwise. */
  lemma RunsOf(c: DeviceCategory)
    ensures GetDevicesByCategory(c) == (if c == Iphone then Phones else []) + (if c == Ipad then Tablets else [])
                                       + (if c == Android then Androids else [])
  {
    ByCategory(c);
    PhonesFilter(c);
    TabletsFilter(c);
    AndroidsFilter(c);
  }

  /** Concatenating three lists of which at most one is non-empty gives that one. */
  lemma OnlyOne<T>(x: seq<T>, y: seq<T>, z: seq<T>)
    ensures y == [] && z == [] ==> x + y + z == x
    ensures x == [] && z == [] ==> x + y + z == y
    ensures x == [] && y == [] ==> x + y + z == z
  {
  }

  /** The lookup by id finds the preset itself, since ids are unique. */
  lemma GetDeviceByIdFinds(i: nat)
    requires i < |DevicePresets|
    ensures GetDeviceById(DevicePresets[i].id) == Some(DevicePresets[i])
  {
    DeviceIdsUnique();
  }
}
