/** An interview question as the model returns it: the question text and an
    ideal answer that serves only as the grading rubric. */
module Questions {
  datatype Question = Question(question: string, answer: string)
}
