/**
 * The extension-name subset test and the assembly of a name list from extension tags
 * (src/core/function.hpp).
 */
module Function {
  import opened VkTypes
  import opened Tags

  /** The set of C strings an enumeration advertises. */
  ghost function AdvertisedNames(available: seq<ExtensionProperties>): set<Name>
  {
    set j | 0 <= j < |available| :: CStr(available[j].extensionName)
  }

  /**
   * std::find_if over the available entries with strcmp(name, extensionName) == 0:
   * the position of the first match, or |available| (the end iterator) when there is none.
   */
  function FindIf(name: Name, available: seq<ExtensionProperties>): (r: nat)
    ensures r <= |available|
    ensures r < |available| ==> CStr(available[r].extensionName) == CStr(name)
    ensures forall j | 0 <= j < r :: CStr(available[j].extensionName) != CStr(name)
  {
    if available == [] then 0
    else if StrCmp(name, available[0].extensionName) == 0 then 0
    else 1 + FindIf(name, available[1..])
  }

  /**
   * is_extensions_satisfied: std::all_of over the desired names of "find_if finds it".
   * It holds exactly when every desired C string is among the advertised ones.
   */
  function IsExtensionsSatisfied(desired: seq<Name>, available: seq<ExtensionProperties>): (r: bool)
    ensures r <==> forall i | 0 <= i < |desired| :: CStr(desired[i]) in AdvertisedNames(available)
  {
    if desired == [] then true
    else
      var k := FindIf(desired[0], available);
      assert k < |available| <==> CStr(desired[0]) in AdvertisedNames(available);
      var rest := IsExtensionsSatisfied(desired[1..], available);
      assert forall i | 1 <= i < |desired| :: desired[i] == desired[1..][i - 1];
      k != |available| && rest
  }

  /** get_extension_string_array: one name per tag, in argument order. */
  function ExtensionStringArray(exts: seq<ExtensionTag>): (r: seq<Name>)
    ensures |r| == |exts|
    ensures forall i | 0 <= i < |exts| :: r[i] == ExtensionName(exts[i])
  {
    if exts == [] then [] else [ExtensionName(exts[0])] + ExtensionStringArray(exts[1..])
  }

  /** Asking for nothing is always satisfied. */
  lemma EmptyDesiredIsSatisfied(available: seq<ExtensionProperties>)
    ensures IsExtensionsSatisfied([], available)
  {
  }

  /** Asking for something is never satisfied when nothing is advertised. */
  lemma NothingAdvertised(desired: seq<Name>)
    requires desired != []
    ensures !IsExtensionsSatisfied(desired, [])
  {
    assert CStr(desired[0]) !in AdvertisedNames([]);
  }

  /** One name against one entry: satisfied exactly when the two C strings are equal byte for byte. */
  lemma SingleNameIsExactMatch(name: Name, entry: ExtensionProperties)
    ensures IsExtensionsSatisfied([name], [entry]) <==> CStr(name) == CStr(entry.extensionName)
  {
    assert AdvertisedNames([entry]) == {CStr(entry.extensionName)};
  }

  /** Matching is case-sensitive: a lower-case spelling does not match the advertised name. */
  lemma MatchIsCaseSensitive()
    ensures !IsExtensionsSatisfied(["vk_khr_surface"], [ExtensionProperties(VK_KHR_SURFACE_EXTENSION_NAME, 25)])
  {
    var lower: Name := "vk_khr_surface";
    assert At(lower, 0) != At(VK_KHR_SURFACE_EXTENSION_NAME, 0);
    assert StrCmp(lower, VK_KHR_SURFACE_EXTENSION_NAME) != 0;
    SingleNameIsExactMatch(lower, ExtensionProperties(VK_KHR_SURFACE_EXTENSION_NAME, 25));
  }

  /** The result depends on the advertised entries only through the set of names they carry. */
  lemma SameNamesSameVerdict(desired: seq<Name>, a1: seq<ExtensionProperties>, a2: seq<ExtensionProperties>)
    requires AdvertisedNames(a1) == AdvertisedNames(a2)
    ensures IsExtensionsSatisfied(desired, a1) == IsExtensionsSatisfied(desired, a2)
  {
  }

  /** Reordering the advertised entries does not change the verdict. */
  lemma {:induction false} PermutedAvailable(desired: seq<Name>, a1: seq<ExtensionProperties>, a2: seq<ExtensionProperties>)
    requires multiset(a1) == multiset(a2)
    ensures IsExtensionsSatisfied(desired, a1) == IsExtensionsSatisfied(desired, a2)
  {
    forall n | n in AdvertisedNames(a1) ensures n in AdvertisedNames(a2) {
      var j :| 0 <= j < |a1| && CStr(a1[j].extensionName) == n;
      assert a1[j] in multiset(a2);
      var k :| 0 <= k < |a2| && a2[k] == a1[j];
    }
    forall n | n in AdvertisedNames(a2) ensures n in AdvertisedNames(a1) {
      var j :| 0 <= j < |a2| && CStr(a2[j].extensionName) == n;
      assert a2[j] in multiset(a1);
      var k :| 0 <= k < |a1| && a1[k] == a2[j];
    }
    SameNamesSameVerdict(desired, a1, a2);
  }

  /** Repeating an advertised entry does not change the verdict. */
  lemma DuplicatedAvailable(desired: seq<Name>, available: seq<ExtensionProperties>, k: nat)
    requires k < |available|
    ensures IsExtensionsSatisfied(desired, available + [available[k]]) == IsExtensionsSatisfied(desired, available)
  {
    var more := available + [available[k]];
    assert AdvertisedNames(more) == AdvertisedNames(available) by {
      assert forall j | 0 <= j < |available| :: more[j] == available[j];
      assert more[|available|] == available[k];
    }
  }

  /** Advertising more entries never turns a satisfied request into an unsatisfied one. */
  lemma MoreAvailable(desired: seq<Name>, available: seq<ExtensionProperties>, extra: seq<ExtensionProperties>)
    requires IsExtensionsSatisfied(desired, available)
    ensures IsExtensionsSatisfied(desired, available + extra)
  {
    var more := available + extra;
    assert AdvertisedNames(available) <= AdvertisedNames(more) by {
      assert forall j | 0 <= j < |available| :: more[j] == available[j];
    }
  }

  /** Asking for fewer names never turns a satisfied request into an unsatisfied one. */
  lemma FewerDesired(desired: seq<Name>, fewer: seq<Name>, available: seq<ExtensionProperties>)
    requires forall n | n in fewer :: n in desired
    requires IsExtensionsSatisfied(desired, available)
    ensures IsExtensionsSatisfied(fewer, available)
  {
    forall i | 0 <= i < |fewer| ensures CStr(fewer[i]) in AdvertisedNames(available) {
      assert fewer[i] in fewer;
      var k :| 0 <= k < |desired| && desired[k] == fewer[i];
    }
  }

  /** ["A", "B"] is satisfied by ["B", "A", "C"]. */
  lemma SubsetExample()
    ensures IsExtensionsSatisfied(["A", "B"],
      [ExtensionProperties("B", 1), ExtensionProperties("A", 1), ExtensionProperties("C", 1)])
  {
    var available := [ExtensionProperties("B", 1), ExtensionProperties("A", 1), ExtensionProperties("C", 1)];
    CStrOfPlain("A");
    CStrOfPlain("B");
    assert CStr(available[1].extensionName) == "A";
    assert CStr(available[0].extensionName) == "B";
    assert ["A", "B"][0] == "A" && ["A", "B"][1] == "B";
  }
}
