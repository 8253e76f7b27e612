/** The subscribe buttons of the pricing page (components/PricingView.tsx).
    Each button passes `onUpgrade` itself as its click handler, so the
    upgrade receives the click event instead of the package's duration and
    every package expires today. SubscribeAsWritten models that wiring;
    Subscribe is the evidently intended one, handing over the package's
    own duration. */
module PricingView {
  import opened Types
  import opened Session

  /** Months a package's duration adds. */
  function PackageMonths(d: PlanDuration): (n: nat)
    ensures n >= 1
    ensures d == Year ==> n == 12
  {
    MonthsAdded(Plan(d))
  }

  /** `onClick={onUpgrade}`: the package plays no part in the upgrade. */
  function SubscribeAsWritten(user: UserProfile, pkg: Package, dateAfterMonths: nat -> string): (r: UserProfile)
    ensures r.isPro
    ensures r.expiryDate == Some(dateAfterMonths(0))
  {
    Upgrade(user, ClickEvent, dateAfterMonths)
  }

  /** Subscribing to a package sets the expiry its duration promises. */
  function Subscribe(user: UserProfile, pkg: Package, dateAfterMonths: nat -> string): (r: UserProfile)
    ensures r.isPro
    ensures r.expiryDate == Some(dateAfterMonths(PackageMonths(pkg.duration)))
    ensures r.(isPro := user.isPro, expiryDate := user.expiryDate) == user
  {
    Upgrade(user, Plan(pkg.duration), dateAfterMonths)
  }

  /** The discrepancy: whenever "today" and "today plus the package's
      months" are different dates, the wired button gives a different
      expiry than the package promises; a yearly package is one case. */
  lemma AsWrittenExpiresToday(user: UserProfile, pkg: Package, dateAfterMonths: nat -> string)
    requires dateAfterMonths(0) != dateAfterMonths(PackageMonths(pkg.duration))
    ensures SubscribeAsWritten(user, pkg, dateAfterMonths).expiryDate
      != Subscribe(user, pkg, dateAfterMonths).expiryDate
  {
  }

  /** With the intended wiring, the yearly package expires twelve months
      from today. */
  lemma YearPackageLastsAYear(user: UserProfile, pkg: Package, dateAfterMonths: nat -> string)
    requires pkg.duration == Year
    ensures Subscribe(user, pkg, dateAfterMonths).expiryDate == Some(dateAfterMonths(12))
  {
  }
}
