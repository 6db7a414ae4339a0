/** From raw database keys to notifications: the table watcher strips the field
    prefix, the watcher proxy tells plain properties from asset parts. */
module ChangePipeline {
  import opened Common

  const FIELDS_PREFIX := "p_"
  const DEVICEID_KEY := "__deviceId"
  const ASSET_DOT: char := '.'
  const MODIFY_TIME_SUFFIX := ".modifyTime"
  const SIZE_SUFFIX := ".size"

  // ---- What the notifications should be, said of the raw keys ----

  predicate DotFree(k: string) {
    ASSET_DOT !in k
  }

  predicate IsPlain(k: string) {
    DotFree(k) && k != DEVICEID_KEY
  }

  function Plain(keys: seq<string>): seq<string> {
    if keys == [] then []
    else Plain(keys[..|keys| - 1]) + (if IsPlain(keys[|keys| - 1]) then [keys[|keys| - 1]] else [])
  }

  predicate HasPrefix(k: string) {
    |k| >= |FIELDS_PREFIX| && k[..|FIELDS_PREFIX|] == FIELDS_PREFIX
  }

  /** The asset is named by a changed modification time or size. */
  predicate AssetChanged(keys: seq<string>, k: string) {
    k != "" && DotFree(k) && (k + MODIFY_TIME_SUFFIX in keys || k + SIZE_SUFFIX in keys)
  }

  /** The prefixed keys without their prefix, in order. */
  function Fields(raw: seq<string>): seq<string> {
    if raw == [] then []
    else
      var k := raw[|raw| - 1];
      Fields(raw[..|raw| - 1]) + (if HasPrefix(k) then [k[|FIELDS_PREFIX|..]] else [])
  }

  function Strip(k: string): string {
    if HasPrefix(k) then k[|FIELDS_PREFIX|..] else k
  }

  function Stripped(raw: seq<string>): (r: seq<string>)
    ensures |r| == |raw| && forall i :: 0 <= i < |raw| ==> r[i] == Strip(raw[i])
  {
    seq(|raw|, i requires 0 <= i < |raw| => Strip(raw[i]))
  }

  ghost predicate Once(ks: seq<string>) {
    forall i, j :: 0 <= i < j < |ks| ==> ks[i] != ks[j]
  }

  /** Each changed asset exactly once, in some order, and nothing else. */
  ghost predicate ListsAssets(ks: seq<string>, keys: seq<string>) {
    Once(ks) && forall k :: k in ks <==> AssetChanged(keys, k)
  }

  lemma {:induction false} FieldsAre(raw: seq<string>, k: string)
    ensures k in Fields(raw) <==> FIELDS_PREFIX + k in raw
  {
    if raw != [] {
      var n := |raw| - 1;
      FieldsAre(raw[..n], k);
      assert raw == raw[..n] + [raw[n]];
      if raw[n] == FIELDS_PREFIX + k {
        assert raw[n][2..] == k;
      } else if HasPrefix(raw[n]) {
        assert raw[n] == raw[n][..2] + raw[n][2..];
      }
    }
  }

  /** The field is among the raw keys with its prefix in front, or is there itself and does
      not begin with the prefix. */
  predicate Announced(raw: seq<string>, f: string) {
    FIELDS_PREFIX + f in raw || (f in raw && !(FIELDS_PREFIX <= f))
  }

  /** Stripping takes one prefix off, and leaves a key without it alone. */
  lemma StripIs(k: string)
    ensures Strip(FIELDS_PREFIX + k) == k
    ensures !(FIELDS_PREFIX <= k) ==> Strip(k) == k
    ensures FIELDS_PREFIX <= k ==> k == FIELDS_PREFIX + Strip(k)
  {
    assert (FIELDS_PREFIX + k)[..2] == FIELDS_PREFIX && (FIELDS_PREFIX + k)[2..] == k;
    if FIELDS_PREFIX <= k {
      assert k == k[..2] + k[2..];
    }
  }

  lemma StrippedAre(raw: seq<string>, f: string)
    ensures f in Stripped(raw) <==> Announced(raw, f)
  {
    hide Strip;
    StripIs(f);
    if f in Stripped(raw) {
      var i :| 0 <= i < |raw| && Stripped(raw)[i] == f;
      StripIs(raw[i]);
      assert raw[i] in raw;
    }
    if FIELDS_PREFIX + f in raw {
      var i :| 0 <= i < |raw| && raw[i] == FIELDS_PREFIX + f;
      assert Stripped(raw)[i] == f;
    } else if f in raw && !(FIELDS_PREFIX <= f) {
      var i :| 0 <= i < |raw| && raw[i] == f;
      assert Stripped(raw)[i] == f;
    }
  }

  function Prefixed(fields: seq<string>): (r: seq<string>)
    ensures |r| == |fields| && forall i :: 0 <= i < |fields| ==> r[i] == FIELDS_PREFIX + fields[i]
  {
    seq(|fields|, i requires 0 <= i < |fields| => FIELDS_PREFIX + fields[i])
  }

  /** Prefixed keys lead back to the fields, whichever way they are announced. */
  lemma {:induction false} PrefixedLeadsBack(fields: seq<string>)
    ensures Stripped(Prefixed(fields)) == fields && Fields(Prefixed(fields)) == fields
  {
    hide Strip;
    forall i | 0 <= i < |fields| ensures Stripped(Prefixed(fields))[i] == fields[i] {
      StripIs(fields[i]);
    }
    if fields != [] {
      var n := |fields| - 1;
      PrefixedLeadsBack(fields[..n]);
      assert Prefixed(fields)[..n] == Prefixed(fields[..n]);
      assert fields == fields[..n] + [fields[n]];
      assert (FIELDS_PREFIX + fields[n])[..2] == FIELDS_PREFIX && (FIELDS_PREFIX + fields[n])[2..] == fields[n];
    }
  }

  /** The plain keys are the ones without a dot that are not the device id. */
  lemma {:induction false} PlainMembers(keys: seq<string>, k: string)
    ensures k in Plain(keys) <==> k in keys && '.' !in k && k != "__deviceId"
  {
    if keys != [] {
      var n := |keys| - 1;
      PlainMembers(keys[..n], k);
      assert keys == keys[..n] + [keys[n]];
    }
  }

  // ---- The watcher proxy ----

  function FirstDot(k: string): (p: nat)
    ensures p <= |k| && DotFree(k[..p]) && (p < |k| ==> k[p] == ASSET_DOT)
  {
    if k == "" || k[0] == ASSET_DOT then 0
    else
      var p := 1 + FirstDot(k[1..]);
      assert k[..p] == [k[0]] + k[1..][..p - 1];
      p
  }

  lemma {:induction false} FirstDotIs(k: string, rest: string)
    requires DotFree(k) && rest != "" && rest[0] == ASSET_DOT
    ensures FirstDot(k + rest) == |k|
  {
    if k == "" {
      assert k + rest == rest;
    } else {
      FirstDotIs(k[1..], rest);
      assert (k + rest)[1..] == k[1..] + rest;
    }
  }

  function FindChangedAssetKey(key: string): Option<string>
    requires !DotFree(key)
  {
    var dot := FirstDot(key);
    if (|key| > |MODIFY_TIME_SUFFIX| && key[dot..] == MODIFY_TIME_SUFFIX)
       || (|key| > |SIZE_SUFFIX| && key[dot..] == SIZE_SUFFIX)
    then Some(key[..dot])
    else None
  }

  /** The key found is the non-empty, dot-free part in front of either suffix. */
  lemma FindsAsset(key: string, k: string)
    requires !DotFree(key)
    ensures FindChangedAssetKey(key) == Some(k)
            <==> k != "" && DotFree(k) && (key == k + MODIFY_TIME_SUFFIX || key == k + SIZE_SUFFIX)
  {
  }

  /** What one more changed key adds to the changed assets. */
  lemma AssetStep(keys: seq<string>, key: string, k: string)
    ensures AssetChanged(keys + [key], k)
            <==> AssetChanged(keys, k) || (!DotFree(key) && FindChangedAssetKey(key) == Some(k))
  {
    if DotFree(key) {
      assert (k + MODIFY_TIME_SUFFIX)[|k|] == ASSET_DOT && (k + SIZE_SUFFIX)[|k|] == ASSET_DOT;
    } else {
      FindsAsset(key, k);
    }
  }

  class WatcherProxy {
    /** The notifications made: the calls of the object watcher, and the calls of the
        asset callback. */
    var notified: seq<seq<string>>
    var assetChanges: seq<string>
    var hasCallback: bool

    constructor ()
      ensures notified == [] && assetChanges == [] && !hasCallback
    {
      notified, assetChanges, hasCallback := [], [], false;
    }

    method SetAssetChangeCallBack()
      modifies this`hasCallback
      ensures hasCallback
    {
      hasCallback := true;
    }

    /** Walks over the set of asset keys in some order, calling back for each if
        transfer is enabled. */
    method Transfer(transferKeys: set<string>, enableTransfer: bool) returns (keys: seq<string>)
      modifies this`assetChanges
      ensures Once(keys) && forall k :: k in keys <==> k in transferKeys
      ensures assetChanges == old(assetChanges) + (if enableTransfer && hasCallback then keys else [])
    {
      keys := [];
      var todo := transferKeys;
      while todo != {}
        invariant todo <= transferKeys && Once(keys)
        invariant forall k :: k in keys <==> k in transferKeys && k !in todo
        invariant assetChanges == old(assetChanges) + (if enableTransfer && hasCallback then keys else [])
        decreases |todo|
      {
        var k :| k in todo;
        todo := todo - {k};
        if enableTransfer && hasCallback {
          assetChanges := assetChanges + [k];
        }
        keys := keys + [k];
      }
    }

    method OnChanged(changedData: seq<string>, enableTransfer: bool)
      returns (ghost transferred: seq<string>)
      modifies this
      ensures hasCallback == old(hasCallback)
      ensures ListsAssets(transferred, changedData)
      ensures var keys := Plain(changedData) + (if enableTransfer then [] else transferred);
              notified == old(notified) + (if keys == [] then [] else [keys])
      ensures assetChanges == old(assetChanges) + (if enableTransfer && hasCallback then transferred else [])
    {
      assert forall k :: !AssetChanged(changedData[..0], k);
      hide AssetChanged, FindChangedAssetKey;
      var transferKeys: set<string>, otherKeys: seq<string> := {}, [];
      for i := 0 to |changedData|
        invariant otherKeys == Plain(changedData[..i])
        invariant forall k :: k in transferKeys <==> AssetChanged(changedData[..i], k)
        invariant unchanged(this)
      {
        var str := changedData[i];
        assert changedData[..i + 1] == changedData[..i] + [str];
        assert changedData[..i + 1][..i] == changedData[..i];
        forall k {
          AssetStep(changedData[..i], str, k);
        }
        if ASSET_DOT !in str {
          if str != DEVICEID_KEY {
            otherKeys := otherKeys + [str];
          }
        } else {
          var assetKey := FindChangedAssetKey(str);
          if assetKey.Some? {
            transferKeys := transferKeys + {assetKey.value};
          }
        }
      }
      assert changedData[..|changedData|] == changedData;
      var keys := Transfer(transferKeys, enableTransfer);
      transferred := keys;
      assert otherKeys + [] == otherKeys;
      if !enableTransfer {
        otherKeys := otherKeys + keys;
      }
      if otherKeys != [] {
        notified := notified + [otherKeys];
      }
    }

    /** The table watcher: of the keys inserted and then updated, the prefixed ones. */
    method OnChange(inserted: seq<string>, updated: seq<string>)
      returns (ghost transferred: seq<string>)
      modifies this
      ensures var keys := Plain(Fields(inserted) + Fields(updated));
              notified == old(notified) + (if keys == [] then [] else [keys])
      ensures assetChanges == old(assetChanges) + (if old(hasCallback) then transferred else [])
      ensures Once(transferred)
      ensures forall k :: k in transferred <==>
          && k != "" && DotFree(k)
          && exists suffix :: suffix in [MODIFY_TIME_SUFFIX, SIZE_SUFFIX]
               && FIELDS_PREFIX + (k + suffix) in inserted + updated
    {
      var changedData: seq<string> := [];
      for i := 0 to |inserted|
        invariant changedData == Fields(inserted[..i]) && notified == old(notified)
        invariant assetChanges == old(assetChanges) && hasCallback == old(hasCallback)
      {
        assert inserted[..i + 1][..i] == inserted[..i];
        if HasPrefix(inserted[i]) {
          changedData := changedData + [inserted[i][|FIELDS_PREFIX|..]];
        }
      }
      assert inserted[..|inserted|] == inserted;
      for i := 0 to |updated|
        invariant changedData == Fields(inserted) + Fields(updated[..i]) && notified == old(notified)
        invariant assetChanges == old(assetChanges) && hasCallback == old(hasCallback)
      {
        assert updated[..i + 1][..i] == updated[..i];
        if HasPrefix(updated[i]) {
          changedData := changedData + [updated[i][|FIELDS_PREFIX|..]];
        }
      }
      assert updated[..|updated|] == updated;
      transferred := OnChanged(changedData, true);
      assert Plain(changedData) + [] == Plain(changedData);
      forall k: string, suffix
        ensures k + suffix in changedData <==> FIELDS_PREFIX + (k + suffix) in inserted + updated
      {
        FieldsAre(inserted, k + suffix);
        FieldsAre(updated, k + suffix);
      }
      assert MODIFY_TIME_SUFFIX in [MODIFY_TIME_SUFFIX, SIZE_SUFFIX] && SIZE_SUFFIX in [MODIFY_TIME_SUFFIX, SIZE_SUFFIX];
    }
  }

  /** Changes announced without transfer: assets join the plain keys. Without an observer
      for the session nobody is told. */
  method NotifyChange(observers: map<string, WatcherProxy>, session: string, changed: seq<string>)
    returns (ghost transferred: seq<string>)
    modifies if session in observers then {observers[session]} else {}
    ensures session in observers ==>
      var w := observers[session];
      && ListsAssets(transferred, Stripped(changed)) && w.assetChanges == old(w.assetChanges)
      && (var keys := Plain(Stripped(changed)) + transferred;
          w.notified == old(w.notified) + (if keys == [] then [] else [keys]))
      && forall k :: k in transferred <==>
           && k != "" && DotFree(k)
           && exists suffix :: suffix in [MODIFY_TIME_SUFFIX, SIZE_SUFFIX] && Announced(changed, k + suffix)
    ensures session !in observers ==> forall w :: w in observers.Values ==> unchanged(w)
  {
    if session !in observers {
      return [];
    }
    var w := observers[session];
    var data: seq<string> := [];
    for i := 0 to |changed|
      invariant data == Stripped(changed[..i]) && unchanged(w)
    {
      var key := changed[i];
      if HasPrefix(key) {
        key := key[|FIELDS_PREFIX|..];
      }
      data := data + [key];
    }
    assert changed[..|changed|] == changed;
    transferred := w.OnChanged(data, false);
    forall k: string, suffix ensures k + suffix in data <==> Announced(changed, k + suffix) {
      StrippedAre(changed, k + suffix);
    }
    assert MODIFY_TIME_SUFFIX in [MODIFY_TIME_SUFFIX, SIZE_SUFFIX] && SIZE_SUFFIX in [MODIFY_TIME_SUFFIX, SIZE_SUFFIX];
  }

  // ---- The plain notification, said of the raw keys in one pass ----

  /** What a raw key contributes to the plain notification. */
  function PlainField(k: string): seq<string> {
    if HasPrefix(k) && IsPlain(k[|FIELDS_PREFIX|..]) then [k[|FIELDS_PREFIX|..]] else []
  }

  function PlainFields(raw: seq<string>): seq<string> {
    if raw == [] then [] else PlainFields(raw[..|raw| - 1]) + PlainField(raw[|raw| - 1])
  }

  lemma {:induction false} PlainConcat(a: seq<string>, b: seq<string>)
    ensures Plain(a + b) == Plain(a) + Plain(b)
    decreases |b|
  {
    if b == [] {
      assert a + b == a;
    } else {
      var n := |b| - 1;
      PlainConcat(a, b[..n]);
      assert (a + b)[..|a + b| - 1] == a + b[..n];
    }
  }

  lemma {:induction false} PlainFieldsConcat(a: seq<string>, b: seq<string>)
    ensures PlainFields(a + b) == PlainFields(a) + PlainFields(b)
    decreases |b|
  {
    if b == [] {
      assert a + b == a;
    } else {
      var n := |b| - 1;
      PlainFieldsConcat(a, b[..n]);
      assert (a + b)[..|a + b| - 1] == a + b[..n] && (a + b)[|a + b| - 1] == b[n];
      assert PlainFields(a + b) == PlainFields(a + b[..n]) + PlainField(b[n]);
      Regrouped(PlainFields(a), PlainFields(b[..n]), PlainField(b[n]));
    }
  }

  lemma {:induction false} PlainOfFields(raw: seq<string>)
    ensures Plain(Fields(raw)) == PlainFields(raw)
  {
    if raw != [] {
      var n := |raw| - 1;
      PlainOfFields(raw[..n]);
      var last := if HasPrefix(raw[n]) then [raw[n][|FIELDS_PREFIX|..]] else [];
      PlainConcat(Fields(raw[..n]), last);
      assert Plain(last) == PlainField(raw[n]) by {
        if last != [] {
          assert last[..0] == [];
        }
      }
    }
  }

  /** The watcher gets, in order, the stripped dot-free fields other than the device id
      of the inserted and then the updated keys. */
  lemma PipelinePlain(inserted: seq<string>, updated: seq<string>)
    ensures Plain(Fields(inserted) + Fields(updated)) == PlainFields(inserted + updated)
  {
    PlainConcat(Fields(inserted), Fields(updated));
    PlainOfFields(inserted);
    PlainOfFields(updated);
    PlainFieldsConcat(inserted, updated);
  }
}
