/**
 * LoggingInterceptor: sits in the chain of interceptors in front of an
 * operation, lets the operation proceed once, logs one message describing it
 * and returns the result untouched.
 */
module Logging {
  import opened Types

  /**
   * A message: the operation's class, its data, the result and the time it
   * took. How it is formatted into text is not modelled.
   */
  datatype Message<D, R> = Message(operation: string, data: D, result: R, tookMillis: int)

  /** The rest of the chain: records every operation handed to it and answers it. */
  class Chain<D, R> {
    var proceeded: seq<D>
    const answer: D -> Outcome<R>

    constructor (answer: D -> Outcome<R>)
      ensures proceeded == [] && this.answer == answer
    {
      proceeded := [];
      this.answer := answer;
    }

    /** proceed: runs the operation through the rest of the chain. */
    method Proceed(data: D) returns (result: Outcome<R>)
      modifies this
      ensures proceeded == old(proceeded) + [data]
      ensures result == answer(data)
    {
      proceeded := proceeded + [data];
      result := answer(data);
    }
  }

  /** The Logger the interceptor writes to: every message, in order. */
  class Logger<D, R> {
    var messages: seq<Message<D, R>>

    constructor ()
      ensures messages == []
    {
      messages := [];
    }

    method Log(m: Message<D, R>)
      modifies this
      ensures messages == old(messages) + [m]
    {
      messages := messages + [m];
    }
  }

  class LoggingInterceptor<D, R> {
    const logger: Logger<D, R>

    constructor (logger: Logger<D, R>)
      ensures this.logger == logger
    {
      this.logger := logger;
    }

    /**
     * intercept: the operation proceeds exactly once, unchanged; when it
     * returns, one message is logged after it and its result is returned as it
     * is; when it throws, nothing is logged and the failure goes on to the
     * caller. The clock's two readings, before and after, are parameters.
     */
    method Intercept(operation: string, data: D, chain: Chain<D, R>, startMillis: int, endMillis: int)
      returns (result: Outcome<R>)
      modifies chain, logger
      ensures chain.proceeded == old(chain.proceeded) + [data]
      ensures result == chain.answer(data)
      ensures result.Returned? ==>
                logger.messages == old(logger.messages) + [Message(operation, data, result.value, endMillis - startMillis)]
      ensures result.Threw? ==> logger.messages == old(logger.messages)
    {
      result := chain.Proceed(data);
      if result.Returned? {
        logger.Log(Message(operation, data, result.value, endMillis - startMillis));
      }
    }
  }
}
