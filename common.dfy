/** Optional values, standing for the Swift optionals the apps test with `if let` and `guard let`. */
module Wrappers {
  datatype Option<+T> = None | Some(value: T)
}

/** The camera tracking state an AR session reports to its delegate. */
module ARTracking {
  /** Why tracking is limited; `Unknown` stands for any reason a later framework adds
      (the `@unknown default` branches of the apps). */
  datatype LimitedReason = ExcessiveMotion | InsufficientFeatures | Relocalizing | Initializing | Unknown

  datatype TrackingState = NotAvailable | Normal | Limited(reason: LimitedReason)
}
