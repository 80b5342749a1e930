/** Route names of the root stack (`RootStackParamList` in
    navigation/RootNavigator.tsx) and of the bottom tabs, plus `OrderSuccess`,
    the route the checkout screen navigates to. Route parameters that matter
    to a decision are carried by the navigation effects that use them. */
module Routes {

  datatype Route =
    | Splash | Onboarding | Auth | Login | Signup | ForgotPassword | MainTabs
    | ProductDetails | Reviews | CategoryDetails | Cart | Checkout | MyOrders
    | Settings | TopPicks | Search | OrderSuccess
}
