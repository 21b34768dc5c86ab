/** The trainer configuration. */
module Config {

  /** The fields of `TrainerConfig` that the training control logic reads.
      `lr_final` has no class-level default and is always passed by the caller. */
  datatype TrainerConfig = TrainerConfig(
    maxEpochs: int,          // max_epochs
    learningRate: real,      // learning_rate
    lrFinal: real,           // lr_final
    lrDecay: bool,           // lr_decay: linear warmup followed by cosine decay
    warmupTokens: int,       // warmup_tokens
    finalTokens: int,        // final_tokens
    epochSaveFrequency: int, // epoch_save_frequency
    epochSavePath: string)   // epoch_save_path
}
