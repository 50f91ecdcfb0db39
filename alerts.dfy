/** A native alert as the screens raise it: a title and a message. */
module Alerts {

  datatype Alert = Alert(title: string, message: string)
}
