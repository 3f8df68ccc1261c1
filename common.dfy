/** Result and error types shared by the configuration steps of the libFM driver. */
module Common {

  /** The ways the driver refuses a configuration. `throw` statements and
      failed `assert`s of the driver both end the run; both become an `Err`. */
  datatype ConfigError =
    | UnknownMethod(name: string)        // the method name is none of sgd, sgda, mcmc, als
    | UnknownTask(task: string)          // the task is neither r nor c
    | MissingParameter(name: string)     // a mandatory option that was not given
    | BadDimCount(count: nat)            // the dimension-count assertion: `dim` needs three values
    | MissingValidation                  // the assertion that sgda has validation data
    | BadRegularCount(count: nat)        // the assertion on the number of regularization values
    | BadLearnRateCount(count: nat)      // the assertion on the number of learning rates

  datatype Result<+T> = Ok(value: T) | Err(error: ConfigError) {
    predicate IsFailure() {
      Err?
    }

    function PropagateFailure<U>(): Result<U>
      requires Err?
    {
      Err(error)
    }

    function Extract(): T
      requires Ok?
    {
      value
    }
  }

  datatype Option<+T> = None | Some(value: T)
}
