/** The custom bottom tab bar (navigation/CustomTabBar.tsx): the cart badge,
    icon names, labels and what a press does. Animations and haptics are left
    out. */
module TabBar {
  import opened Wrappers

  // ---------------------------------------------------------------------------
  // Badge

  /** The decimal digits of `n`, as `String(n)` prints a non-negative integer. */
  function DecimalString(n: nat): (s: string)
    ensures 1 <= |s| && (n < 10 ==> |s| == 1) && (n < 100 ==> |s| <= 2)
    ensures IsDecimal(s)
    ensures ParseDecimal(s) == n
  {
    if n < 10 then [DigitChar(n)]
    else
      var front := DecimalString(n / 10);
      assert (front + [DigitChar(n % 10)])[..|front|] == front;
      front + [DigitChar(n % 10)]
  }

  function DigitChar(d: nat): (c: char)
    requires d < 10
    ensures '0' <= c <= '9' && (c as int) - ('0' as int) == d
  {
    (('0' as int) + d) as char
  }

  predicate IsDecimal(s: string) {
    forall i :: 0 <= i < |s| ==> '0' <= s[i] <= '9'
  }

  /** Reading decimal digits back. */
  function ParseDecimal(s: string): nat
    requires IsDecimal(s)
    decreases |s|
  {
    if s == [] then 0
    else 10 * ParseDecimal(s[..|s| - 1]) + ((s[|s| - 1] as int) - ('0' as int))
  }

  /** The badge over the cart icon: shown only for a positive item count,
      "99+" above 99, the count itself otherwise. */
  function CartBadge(cartCount: int): (badge: Option<string>)
    ensures badge.Some? <==> cartCount > 0
    ensures cartCount > 99 ==> badge == Some("99+")
    ensures 0 < cartCount <= 99 ==> badge.Some? && 1 <= |badge.value| <= 2 && IsDecimal(badge.value) && ParseDecimal(badge.value) == cartCount
  {
    if cartCount <= 0 then None
    else if cartCount > 99 then Some("99+")
    else Some(DecimalString(cartCount))
  }

  // ---------------------------------------------------------------------------
  // Icons and labels

  function BaseIcon(routeName: string): string {
    if routeName == "Shop" then "house"
    else if routeName == "Categories" then "square.grid.2x2"
    else if routeName == "Cart" then "cart"
    else if routeName == "Profile" then "person"
    else "circle"
  }

  /** `getIconName`: the base icon, with `.fill` appended for the focused tab. */
  function IconName(routeName: string, isFocused: bool): (icon: string)
    ensures BaseIcon(routeName) <= icon
    ensures isFocused <==> icon == BaseIcon(routeName) + ".fill"
    ensures !isFocused ==> icon == BaseIcon(routeName)
  {
    if isFocused then BaseIcon(routeName) + ".fill" else BaseIcon(routeName)
  }

  /** Unknown tabs use the circle icon; the four known tabs have distinct icons. */
  lemma IconsOfTabs(routeName: string)
    ensures routeName !in ["Shop", "Categories", "Cart", "Profile"] ==> BaseIcon(routeName) == "circle"
    ensures routeName in ["Shop", "Categories", "Cart", "Profile"] ==>
      forall other :: other in ["Shop", "Categories", "Cart", "Profile"] && other != routeName ==>
        BaseIcon(other) != BaseIcon(routeName)
  {
  }

  /** `getDisplayLabel`: "Shop" is shown as "Home", everything else as its name. */
  function DisplayLabel(routeName: string): (caption: string)
    ensures routeName == "Shop" ==> caption == "Home"
    ensures routeName != "Shop" ==> caption == routeName
  {
    if routeName == "Shop" then "Home" else routeName
  }

  // ---------------------------------------------------------------------------
  // Press

  /** What a press did: whether a `tabPress` event was emitted, a navigation
      of the parent stack, and a navigation inside the tabs. */
  datatype PressEffect = PressEffect(emittedTabPress: bool, parentNavigation: Option<string>, tabNavigation: Option<string>)

  /** `onPress`. The cart tab opens the root stack's cart screen (when there
      is a parent navigator) and does nothing else; any other tab emits
      `tabPress` and navigates to itself unless it is focused or a listener
      prevented the default. */
  function OnPress(routeName: string, isFocused: bool, hasParent: bool, defaultPrevented: bool): (effect: PressEffect)
    ensures routeName == "Cart" ==>
      && !effect.emittedTabPress && effect.tabNavigation == None
      && effect.parentNavigation == (if hasParent then Some("Cart") else None)
    ensures routeName != "Cart" ==>
      && effect.emittedTabPress && effect.parentNavigation == None
      && (effect.tabNavigation.Some? <==> !isFocused && !defaultPrevented)
      && (effect.tabNavigation.Some? ==> effect.tabNavigation.value == routeName)
  {
    if routeName == "Cart" then
      PressEffect(false, if hasParent then Some("Cart") else None, None)
    else
      PressEffect(true, None, if !isFocused && !defaultPrevented then Some(routeName) else None)
  }
}
