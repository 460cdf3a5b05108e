/** The handler that waits for the user to name the day of the selected
    program: an accepted day is stored as typed, anything else clears the
    selection. Neither branch touches the chat's state machine. */
module TypeDayState {
  import opened Wrappers
  import opened StateMachines
  import opened BaseHandler
  import opened TelegramBotClass

  const DaySetText: string := "Day correctly set. Workout ready to be started"
  const WrongDayText: string := "Wrong day specified. Operation aborted."

  class TypeDayStateHandler {
    const base: BaseStateHandler
    const bot: TelegramBot

    constructor(bot: TelegramBot)
      ensures this.bot == bot && fresh(base)
      ensures base.update == None && base.context == None
      ensures base.callbacks.Valid() && base.callbacks.Keys() == []
    {
      this.base := new BaseStateHandler();
      this.bot := bot;
    }

    /** `handle_message`, given what `check_day` answers for the chat and
        the typed text. An accepted day is stored as the raw text; otherwise
        both selections are cleared. Exactly one message is sent either way,
        and every user's state machine stays as it was. */
    method HandleMessage(update: Update, context: CallbackContext, verdict: Option<bool>)
      modifies base`update, base`context, bot`selectedProgram, bot`selectedDayId, bot.log
      ensures base.update == Some(update) && base.context == Some(context)
      ensures Accepts(verdict) ==>
        && bot.selectedDayId == Held(update.message.text)
        && bot.selectedProgram == old(bot.selectedProgram)
        && bot.log.calls == old(bot.log.calls) + [SendMessage(update.message.chatId, DaySetText)]
      ensures !Accepts(verdict) ==>
        && bot.selectedProgram == NoneValue && bot.selectedDayId == NoneValue
        && bot.log.calls == old(bot.log.calls) + [SendMessage(update.message.chatId, WrongDayText)]
      ensures bot.stateMachine == old(bot.stateMachine)
      ensures forall u :: u in bot.stateMachine ==> bot.stateMachine[u].Current() == old(bot.stateMachine[u].Current())
    {
      base.Receive(update, context);
      var message := update.message;
      if Accepts(verdict) {
        bot.SetSelectedDayId(message.text);
        bot.log.Record(SendMessage(message.chatId, DaySetText));
      } else {
        bot.ClearProgram();
        bot.log.Record(SendMessage(message.chatId, WrongDayText));
      }
    }

    /** With the bot's own `check_day`, which answers None, every message
        clears the selection and records the wrong-day reply. As in
        `HandleMessage`, the reply is logged although the source never
        awaits its `send_message`. */
    method HandleMessageWithBotCheck(update: Update, context: CallbackContext)
      modifies base`update, base`context, bot`selectedProgram, bot`selectedDayId, bot.log
      ensures bot.selectedProgram == NoneValue && bot.selectedDayId == NoneValue
      ensures bot.log.calls == old(bot.log.calls) + [SendMessage(update.message.chatId, WrongDayText)]
      ensures bot.stateMachine == old(bot.stateMachine)
    {
      var verdict := bot.CheckDay(update.message.chatId, update.message.text);
      HandleMessage(update, context, verdict);
    }
  }
}
