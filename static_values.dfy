/** Names shared by the filter: the session header and cookie, the attribute
    names of a session record, and the identity header. */
module StaticValues {
  const JSESSIONID: string := "JSESSIONID"

  const USER_ID: string := "userId"
  const USER_NAME: string := "userName"
  const USER_TYPE: string := "userType"
  const SCK_MBBR_NO: string := "sckMbbrNo"
  const APP_ID: string := "appId"

  const X_SP_CUSTOMER_ID: string := "x-sp-customer-id"
}
