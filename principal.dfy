/** The caller identity resolved for one request. Every attribute is a Java
    string that may be null, hence optional. */
module Principals {
  import opened Wrappers

  datatype Principal = Principal(
    userId: Option<string>,
    userName: Option<string>,
    sckMbbrNo: Option<string>,
    userType: Option<string>,
    appId: Option<string>,
    userStatus: Option<string>)
}
