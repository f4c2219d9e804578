/** The Swift command's pipeline after the download: App Store Connect records
    become ExpiringAssets with default texts, sorted, and optionally cut down
    to those expiring within some days. */
module CodesignAuditApp {
  import opened Wrappers
  import opened ExpiringAsset

  /** The attributes the certificate request asks for; the type is its raw value. */
  datatype CertificateAttributes = CertificateAttributes(
    name: Option<string>, displayName: Option<string>, certificateType: Option<string>,
    expirationDate: Option<int>, serialNumber: Option<string>)

  datatype CertificateRecord = CertificateRecord(id: string, attributes: Option<CertificateAttributes>)

  datatype ProfileAttributes = ProfileAttributes(
    name: Option<string>, profileType: Option<string>, uuid: Option<string>, expirationDate: Option<int>)

  datatype ProfileRecord = ProfileRecord(id: string, attributes: Option<ProfileAttributes>)

  /** Foundation's calendar: `Calendar.current.date(byAdding: .day, value:, to:)`,
      which may give no date. */
  datatype Clock = Clock(addingDays: (int, int) -> Option<int>)

  /** Swift's `a ?? b`. */
  function OrDefault(a: Option<string>, b: string): string {
    if a.Some? then a.value else b
  }

  /** The two detail texts joined by `" | "`. */
  function Details(first: string, second: string): string {
    first + " | " + second
  }

  function CertificateAsset(id: string, a: CertificateAttributes): (asset: Asset)
    ensures asset.id == id && asset.kind == Certificate && asset.expirationDate == a.expirationDate
    ensures a.displayName.Some? ==> asset.name == a.displayName.value
    ensures a.displayName.None? && a.name.Some? ==> asset.name == a.name.value
    ensures a.displayName.None? && a.name.None? ==> asset.name == "Unknown Certificate"
    ensures asset.details == OrDefault(a.certificateType, "UNKNOWN_TYPE") + " | " + OrDefault(a.serialNumber, "UNKNOWN_SERIAL")
  {
    Asset(id, Certificate, OrDefault(a.displayName, OrDefault(a.name, "Unknown Certificate")), a.expirationDate,
      Details(OrDefault(a.certificateType, "UNKNOWN_TYPE"), OrDefault(a.serialNumber, "UNKNOWN_SERIAL")))
  }

  function ProfileAsset(id: string, a: ProfileAttributes): (asset: Asset)
    ensures asset.id == id && asset.kind == Profile && asset.expirationDate == a.expirationDate
    ensures asset.name == OrDefault(a.name, "Unknown Profile")
    ensures asset.details == OrDefault(a.profileType, "UNKNOWN_TYPE") + " | " + OrDefault(a.uuid, "UNKNOWN_UUID")
  {
    Asset(id, Profile, OrDefault(a.name, "Unknown Profile"), a.expirationDate,
      Details(OrDefault(a.profileType, "UNKNOWN_TYPE"), OrDefault(a.uuid, "UNKNOWN_UUID")))
  }

  /** The assets of the records that have attributes, in record order. */
  function CertificateAssets(records: seq<CertificateRecord>): (r: seq<Asset>)
    ensures |r| <= |records|
    ensures forall a :: a in r ==> a.kind == Certificate
  {
    if records == [] then []
    else
      var init := CertificateAssets(records[..|records| - 1]);
      var last := records[|records| - 1];
      if last.attributes.None? then init else init + [CertificateAsset(last.id, last.attributes.value)]
  }

  function ProfileAssets(records: seq<ProfileRecord>): (r: seq<Asset>)
    ensures |r| <= |records|
    ensures forall a :: a in r ==> a.kind == Profile
  {
    if records == [] then []
    else
      var init := ProfileAssets(records[..|records| - 1]);
      var last := records[|records| - 1];
      if last.attributes.None? then init else init + [ProfileAsset(last.id, last.attributes.value)]
  }

  /** The number of records that have attributes. */
  function CountWithAttributes<R>(records: seq<R>, has: R -> bool): nat {
    if records == [] then 0
    else CountWithAttributes(records[..|records| - 1], has) + (if has(records[|records| - 1]) then 1 else 0)
  }

  /** One asset per record with attributes: records without are skipped. */
  lemma {:induction false} CertificateAssetCount(records: seq<CertificateRecord>)
    ensures |CertificateAssets(records)| == CountWithAttributes(records, (c: CertificateRecord) => c.attributes.Some?)
  {
    if records != [] {
      CertificateAssetCount(records[..|records| - 1]);
    }
  }

  lemma {:induction false} ProfileAssetCount(records: seq<ProfileRecord>)
    ensures |ProfileAssets(records)| == CountWithAttributes(records, (p: ProfileRecord) => p.attributes.Some?)
  {
    if records != [] {
      ProfileAssetCount(records[..|records| - 1]);
    }
  }

  /** Each record with attributes yields its asset. */
  lemma {:induction false} CertificateRecordListed(records: seq<CertificateRecord>, k: int)
    requires 0 <= k < |records| && records[k].attributes.Some?
    ensures CertificateAsset(records[k].id, records[k].attributes.value) in CertificateAssets(records)
  {
    if k < |records| - 1 {
      CertificateRecordListed(records[..|records| - 1], k);
    }
  }

  lemma {:induction false} ProfileRecordListed(records: seq<ProfileRecord>, k: int)
    requires 0 <= k < |records| && records[k].attributes.Some?
    ensures ProfileAsset(records[k].id, records[k].attributes.value) in ProfileAssets(records)
  {
    if k < |records| - 1 {
      ProfileRecordListed(records[..|records| - 1], k);
    }
  }

  /** buildCertificateAssets: skip records without attributes, build the
      rest, and sort. */
  method BuildCertificateAssets(certificates: seq<CertificateRecord>) returns (r: seq<Asset>)
    ensures multiset(r) == multiset(CertificateAssets(certificates))
    ensures Sorted(r)
  {
    var assets: seq<Asset> := [];
    for i := 0 to |certificates|
      invariant assets == CertificateAssets(certificates[..i])
    {
      assert certificates[..i + 1][..i] == certificates[..i];
      var attributes := certificates[i].attributes;
      if attributes.None? {
        continue;
      }
      assets := assets + [CertificateAsset(certificates[i].id, attributes.value)];
    }
    assert certificates[..|certificates|] == certificates;
    r := SortAssets(assets);
  }

  method BuildProfileAssets(profiles: seq<ProfileRecord>) returns (r: seq<Asset>)
    ensures multiset(r) == multiset(ProfileAssets(profiles))
    ensures Sorted(r)
  {
    var assets: seq<Asset> := [];
    for i := 0 to |profiles|
      invariant assets == ProfileAssets(profiles[..i])
    {
      assert profiles[..i + 1][..i] == profiles[..i];
      var attributes := profiles[i].attributes;
      if attributes.None? {
        continue;
      }
      assets := assets + [ProfileAsset(profiles[i].id, attributes.value)];
    }
    assert profiles[..|profiles|] == profiles;
    r := SortAssets(assets);
  }

  /** The last instant the day filter keeps: now plus the days, or now itself
      when the calendar gives no date. */
  function UpperBound(clock: Clock, now: int, days: int): int {
    var added := clock.addingDays(now, days);
    if added.Some? then added.value else now
  }

  predicate WithinBound(asset: Asset, bound: int) {
    asset.expirationDate.Some? && asset.expirationDate.value <= bound
  }

  /** filterAssetsExpiringWithinDays: the dated assets due by the bound, in
      their order; there is no lower bound. */
  function FilterAssetsExpiringWithinDays(clock: Clock, now: int, assets: seq<Asset>, days: int): (r: seq<Asset>)
    ensures |r| <= |assets|
    ensures forall a :: a in r <==> a in assets && WithinBound(a, UpperBound(clock, now, days))
  {
    if assets == [] then []
    else
      var rest := FilterAssetsExpiringWithinDays(clock, now, assets[1..], days);
      assert assets == [assets[0]] + assets[1..];
      if WithinBound(assets[0], UpperBound(clock, now, days)) then [assets[0]] + rest else rest
  }

  /** The filter keeps order: its result is a subsequence of its input. */
  lemma {:induction false} FilterKeepsOrder(clock: Clock, now: int, assets: seq<Asset>, days: int, i: int, j: int)
    requires var r := FilterAssetsExpiringWithinDays(clock, now, assets, days); 0 <= i < j < |r|
    ensures exists p, q ::
      (0 <= p < q < |assets|
       && assets[p] == FilterAssetsExpiringWithinDays(clock, now, assets, days)[i]
       && assets[q] == FilterAssetsExpiringWithinDays(clock, now, assets, days)[j])
  {
    var r := FilterAssetsExpiringWithinDays(clock, now, assets, days);
    var rest := FilterAssetsExpiringWithinDays(clock, now, assets[1..], days);
    if WithinBound(assets[0], UpperBound(clock, now, days)) && i == 0 {
      assert r[j] == rest[j - 1] && rest[j - 1] in rest;
      var q :| 0 <= q < |assets[1..]| && assets[1..][q] == rest[j - 1];
      assert assets[0] == r[0] && assets[q + 1] == r[j];
    } else {
      var shift := if WithinBound(assets[0], UpperBound(clock, now, days)) then 1 else 0;
      var i', j' := i - shift, j - shift;
      assert r[i] == rest[i'] && r[j] == rest[j'];
      FilterKeepsOrder(clock, now, assets[1..], days, i', j');
      var p, q :| 0 <= p < q < |assets[1..]| && assets[1..][p] == rest[i'] && assets[1..][q] == rest[j'];
      assert assets[p + 1] == r[i] && assets[q + 1] == r[j];
    }
  }

  /** Assets already past stay, as long as the bound is not before now. */
  lemma ExpiredAssetsStay(clock: Clock, now: int, assets: seq<Asset>, days: int, a: Asset)
    requires a in assets && a.expirationDate.Some? && a.expirationDate.value < now
    requires clock.addingDays(now, days).Some? ==> clock.addingDays(now, days).value >= now
    ensures a in FilterAssetsExpiringWithinDays(clock, now, assets, days)
  {
  }

  /** Filtering keeps the builders' order. */
  lemma {:induction false} FilterKeepsSorted(clock: Clock, now: int, assets: seq<Asset>, days: int)
    requires Sorted(assets)
    ensures Sorted(FilterAssetsExpiringWithinDays(clock, now, assets, days))
  {
    var r := FilterAssetsExpiringWithinDays(clock, now, assets, days);
    forall i, j | 0 <= i < j < |r|
      ensures !SortByExpirationAscending(r[j], r[i])
    {
      FilterKeepsOrder(clock, now, assets, days, i, j);
    }
  }

  /** The lists `run` prints: built, then filtered by days when the option
      is given. Each filter reads the clock on its own. */
  method Run(clock: Clock, certificateNow: int, profileNow: int, expiringWithinDays: Option<int>,
             certificates: seq<CertificateRecord>, profiles: seq<ProfileRecord>)
    returns (certificateAssets: seq<Asset>, profileAssets: seq<Asset>)
    ensures Sorted(certificateAssets) && Sorted(profileAssets)
    ensures expiringWithinDays.None? ==>
      multiset(certificateAssets) == multiset(CertificateAssets(certificates))
      && multiset(profileAssets) == multiset(ProfileAssets(profiles))
    ensures forall a :: a in certificateAssets <==>
      (a in CertificateAssets(certificates)
       && (expiringWithinDays.Some? ==> WithinBound(a, UpperBound(clock, certificateNow, expiringWithinDays.value))))
    ensures forall a :: a in profileAssets <==>
      (a in ProfileAssets(profiles)
       && (expiringWithinDays.Some? ==> WithinBound(a, UpperBound(clock, profileNow, expiringWithinDays.value))))
  {
    certificateAssets := BuildCertificateAssets(certificates);
    profileAssets := BuildProfileAssets(profiles);
    assert forall a :: a in certificateAssets <==> a in multiset(CertificateAssets(certificates));
    assert forall a :: a in profileAssets <==> a in multiset(ProfileAssets(profiles));
    if expiringWithinDays.Some? {
      var days := expiringWithinDays.value;
      FilterKeepsSorted(clock, certificateNow, certificateAssets, days);
      FilterKeepsSorted(clock, profileNow, profileAssets, days);
      certificateAssets := FilterAssetsExpiringWithinDays(clock, certificateNow, certificateAssets, days);
      profileAssets := FilterAssetsExpiringWithinDays(clock, profileNow, profileAssets, days);
    }
  }
}
