/**
 * The catalog of purchasable credit packages (lib/subscriptions/credit-packages/).
 * Each package is a constant record; `CreditPackagesTable` is the object literal that
 * keys them by name, and `PackageKey` is its key type `CreditPackageKey`.
 */
module CreditPackages {

  /** `CreditPackageKey`: the keys of the package table. */
  datatype PackageKey = Small | Medium | Large | XLarge

  /** The property name under which a package sits in the table. */
  function KeyName(k: PackageKey): string {
    match k
    case Small => "small"
    case Medium => "medium"
    case Large => "large"
    case XLarge => "xlarge"
  }

  /**
   * One package. `price` is in US dollars; `credits` is what a purchase adds to the
   * balance; `completions` is advertised, but no operation of the core grants it.
   * The `features` arrays of the source are display text and are not modelled.
   */
  datatype CreditPackage = CreditPackage(
    key: PackageKey,
    name: string,
    price: int,
    completions: int,
    credits: int,
    description: string)

  /** SMALL_CREDIT_PACKAGE. */
  function SmallCreditPackage(): (p: CreditPackage)
    ensures p.key == Small && KeyName(p.key) == "small"
    ensures p.credits == p.price
  {
    CreditPackage(Small, "Small Package", 3, 50, 3, "50 chat completions + Dual AI Builder")
  }

  /** MEDIUM_CREDIT_PACKAGE. */
  function MediumCreditPackage(): (p: CreditPackage)
    ensures p.key == Medium && KeyName(p.key) == "medium"
    ensures p.credits == p.price
  {
    CreditPackage(Medium, "Medium Package", 5, 150, 5, "150 chat completions + Dual AI Builder")
  }

  /** LARGE_CREDIT_PACKAGE. */
  function LargeCreditPackage(): (p: CreditPackage)
    ensures p.key == Large && KeyName(p.key) == "large"
    ensures p.credits == p.price
  {
    CreditPackage(Large, "Large Package", 7, 300, 7, "300 chat completions + Dual AI Builder")
  }

  /** XLARGE_CREDIT_PACKAGE. */
  function XLargeCreditPackage(): (p: CreditPackage)
    ensures p.key == XLarge && KeyName(p.key) == "xlarge"
    ensures p.credits == p.price
  {
    CreditPackage(XLarge, "Extra Large Package", 10, 500, 10, "500 chat completions + Dual AI Builder")
  }

  /** CREDIT_PACKAGES: the object literal keyed by package name. */
  const CreditPackagesTable: map<string, CreditPackage> :=
    map[
      "small" := SmallCreditPackage(),
      "medium" := MediumCreditPackage(),
      "large" := LargeCreditPackage(),
      "xlarge" := XLargeCreditPackage()
    ]

  /** `CREDIT_PACKAGES[key]`: the lookup is total over `CreditPackageKey`. */
  function PackageOf(k: PackageKey): (p: CreditPackage)
    ensures KeyName(k) in CreditPackagesTable && CreditPackagesTable[KeyName(k)] == p
    ensures p.key == k
    ensures p.credits == p.price && p.credits > 0 && p.completions > 0
  {
    CreditPackagesTable[KeyName(k)]
  }

  /**
   * The table has exactly the four keys, every entry's own `key` names the slot it
   * sits in, and `CreditPackageKey` is exactly that key set.
   */
  lemma TableShape()
    ensures CreditPackagesTable.Keys == {"small", "medium", "large", "xlarge"}
    ensures forall s | s in CreditPackagesTable :: KeyName(CreditPackagesTable[s].key) == s
    ensures forall s :: s in CreditPackagesTable <==> exists k: PackageKey :: KeyName(k) == s
  {
    forall s | s in CreditPackagesTable
      ensures exists k: PackageKey :: KeyName(k) == s
    {
      assert KeyName(CreditPackagesTable[s].key) == s;
    }
  }

  /** Credits and completions rise strictly with the package size. */
  lemma CreditsIncreaseWithSize()
    ensures PackageOf(Small).credits < PackageOf(Medium).credits
              < PackageOf(Large).credits < PackageOf(XLarge).credits
    ensures PackageOf(Small).completions < PackageOf(Medium).completions
              < PackageOf(Large).completions < PackageOf(XLarge).completions
  {
  }
}
