/** The routes the pages navigate to; navigation itself is an effect outside the model. */
module Navigation {

  datatype Route = ToLogin | ToDashboard | ToAdmin
}
