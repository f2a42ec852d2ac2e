/** The traffic routes whose migration status the status store records. */
module RouteIds {

  datatype RouteId =
    | AppSrRoute | AppSpRoute | WebSrRoute | WebSpRoute | WebSpRouteNew
    | SpRoute | SrRoute | XoSpRoute
  {
    /** The enum constant's name, which is the field name in the status store. */
    function Name(): string
    {
      match this
      case AppSrRoute => "APP_SR_ROUTE"
      case AppSpRoute => "APP_SP_ROUTE"
      case WebSrRoute => "WEB_SR_ROUTE"
      case WebSpRoute => "WEB_SP_ROUTE"
      case WebSpRouteNew => "WEB_SP_ROUTE_NEW"
      case SpRoute => "SP_ROUTE"
      case SrRoute => "SR_ROUTE"
      case XoSpRoute => "XO_SP_ROUTE"
    }
  }
}
