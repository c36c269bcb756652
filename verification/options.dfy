/** An optional value, standing in for the Java `null` results of the modelled code. */
module Options {

  datatype Option<+T> = None | Some(value: T)

}
