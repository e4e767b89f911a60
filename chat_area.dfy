/**
 * The chat area: the list of messages and the loading flag. Sending appends
 * the user's message and sets the flag; a timer later appends one canned
 * assistant reply, chosen by the send options, and clears the flag. Usage
 * statistics show under the list when the last message is an assistant
 * reply that carries them.
 */
module ChatArea {
  import opened Wrappers
  import opened MessageBubble
  import ChatInput

  /** The optional second argument of `handleSendMessage`. */
  datatype SendOptions = SendOptions(codeGeneration: Option<bool>, isPremium: Option<bool>)

  /** A message of the list; its id and timestamp are left out. */
  datatype Message = Message(
    content: string,
    role: Role,
    responseTime: Option<real>,
    tokens: Option<int>,
    isPremium: Option<bool>)

  /** An optional boolean is truthy exactly when it is present and true. */
  predicate IsTrue(b: Option<bool>) {
    b == Some(true)
  }

  /** `options?.codeGeneration` is truthy. */
  predicate CodeGenerationRequested(options: Option<SendOptions>) {
    options.Some? && IsTrue(options.value.codeGeneration)
  }

  /** The reply when no code is requested. */
  const PlainReply: string :=
    "I understand your request. "
    + "This is a simulated response from the AI assistant. In a real implementation, this would connect to an actual AI model API to generate responses based on your input."

  /** The reply when code is requested. */
  const CodeReply: string := @"I'll help you with that code! Here's a solution:

```javascript
// Example implementation
function handleRequest(data) {
  console.log('Processing:', data);
  
  // Add your logic here
  const result = data.map(item => ({
    ...item,
    processed: true,
    timestamp: new Date().toISOString()
  }));
  
  return {
    success: true,
    data: result,
    message: 'Request processed successfully'
  };
}

// Usage example
const sampleData = [
  { id: 1, name: 'Task 1' },
  { id: 2, name: 'Task 2' }
];

const result = handleRequest(sampleData);
console.log(result);
```

This implementation provides a robust solution that handles your requirements with proper error handling and data processing."

  /**
   * The `responseContent` the timer builds: the code template exactly when
   * code generation is requested, the plain reply otherwise.
   */
  function ReplyContent(options: Option<SendOptions>): (content: string)
    ensures content == CodeReply <==> CodeGenerationRequested(options)
    ensures content == PlainReply <==> !CodeGenerationRequested(options)
  {
    assert |CodeReply| != |PlainReply|;
    if CodeGenerationRequested(options) then CodeReply else PlainReply
  }

  /**
   * The reply's `isPremium`: the options' `isPremium` or-ed with their
   * `codeGeneration` in JavaScript's sense, where `||` yields its first
   * operand when that is truthy and its second otherwise.
   * The flag is truthy exactly when either option is.
   */
  function PremiumFlag(options: Option<SendOptions>): (flag: Option<bool>)
    ensures IsTrue(flag) <==> options.Some? && (IsTrue(options.value.isPremium) || IsTrue(options.value.codeGeneration))
    ensures options.None? ==> flag.None?
  {
    if options.None? then None
    else if IsTrue(options.value.isPremium) then options.value.isPremium
    else options.value.codeGeneration
  }

  /** The response time: a random draw in [0, 1), doubled, plus half a second. */
  function ResponseTime(random: real): (seconds: real)
    requires 0.0 <= random < 1.0
    ensures 0.5 <= seconds < 2.5
  {
    random * 2.0 + 0.5
  }

  /** The token count: a random draw in [0, 1) scaled to 1000, rounded down, plus 500. */
  function TokenCount(random: real): (tokens: int)
    requires 0.0 <= random < 1.0
    ensures 500 <= tokens <= 1499
  {
    (random * 1000.0).Floor + 500
  }

  /** Every count in [500, 1499] is the result of some draw. */
  lemma TokenCountOnto(tokens: int)
    requires 500 <= tokens <= 1499
    ensures exists random: real :: 0.0 <= random < 1.0 && TokenCount(random) == tokens
  {
    var random := (tokens - 500) as real / 1000.0;
    assert random * 1000.0 == (tokens - 500) as real;
    assert TokenCount(random) == tokens;
  }

  /** The message the user's text becomes. */
  function UserMessage(content: string): (m: Message)
    ensures m.role == User && m.content == content
    ensures m.responseTime.None? && m.tokens.None? && m.isPremium.None?
  {
    Message(content, User, None, None, None)
  }

  /** `aiMessage`, given the send options and the two random draws. */
  function Reply(options: Option<SendOptions>, random1: real, random2: real): (m: Message)
    requires 0.0 <= random1 < 1.0 && 0.0 <= random2 < 1.0
    ensures m.role == Assistant
    ensures m.content == ReplyContent(options)
    ensures m.responseTime.Some? && 0.5 <= m.responseTime.value < 2.5
    ensures m.tokens.Some? && 500 <= m.tokens.value <= 1499
    ensures IsTrue(m.isPremium) <==> options.Some? && (IsTrue(options.value.isPremium) || IsTrue(options.value.codeGeneration))
  {
    Message(ReplyContent(options), Assistant, Some(ResponseTime(random1)), Some(TokenCount(random2)), PremiumFlag(options))
  }

  /** The input calls `onSendMessage` with the text alone: its replies are always the plain one. */
  lemma InputRepliesArePlain(random1: real, random2: real)
    requires 0.0 <= random1 < 1.0 && 0.0 <= random2 < 1.0
    ensures Reply(None, random1, random2).content == PlainReply
    ensures Reply(None, random1, random2).isPremium.None?
  {
  }

  /**
   * `showStats`: the last message is an assistant's with a truthy
   * `responseTime` and a truthy `tokens` (present and non-zero).
   */
  function ShowStats(messages: seq<Message>): (show: bool)
    ensures show ==> |messages| > 0 && messages[|messages| - 1].role == Assistant
    ensures show ==> messages[|messages| - 1].responseTime.Some? && messages[|messages| - 1].tokens.Some?
  {
    |messages| > 0
    && messages[|messages| - 1].role == Assistant
    && messages[|messages| - 1].responseTime.Some? && messages[|messages| - 1].responseTime.value != 0.0
    && messages[|messages| - 1].tokens.Some? && messages[|messages| - 1].tokens.value != 0
  }

  /** Right after a send the last message is the user's, so no statistics show. */
  lemma SendHidesStats(messages: seq<Message>, content: string)
    ensures !ShowStats(messages + [UserMessage(content)])
  {
  }

  /** After any completion statistics show, since a reply has at least 500 tokens. */
  lemma CompletionShowsStats(messages: seq<Message>, options: Option<SendOptions>, random1: real, random2: real)
    requires 0.0 <= random1 < 1.0 && 0.0 <= random2 < 1.0
    ensures ShowStats(messages + [Reply(options, random1, random2)])
  {
  }

  /** The list the component starts with. */
  const Seed: seq<Message> := [
    Message("(Windows).\n\U{00E2}\U{20AC}\U{201D} **Always verify indentation, line endings, and hidden characters after pasting.**",
            Assistant, None, None, None),
    Message("Happy coding! \U{00F0}\U{0178}\U{0161}\U{20AC} If you run into a specific environment that isn't covered here, `let me know` and I'll dive into the details.",
            Assistant, None, None, None),
    Message("Create a Python Flask API with authentication", User, None, None, None),
    Message(@"I'll help you create a comprehensive Flask API with authentication. Here's a complete implementation:

```python
from flask import Flask, request, jsonify
from flask_sqlalchemy import SQLAlchemy
from flask_jwt_extended import JWTManager, create_access_token, jwt_required, get_jwt_identity
from werkzeug.security import generate_password_hash, check_password_hash
from datetime import timedelta
import os

app = Flask(__name__)
app.config['SECRET_KEY'] = os.environ.get('SECRET_KEY', 'your-secret-key-here')
app.config['SQLALCHEMY_DATABASE_URI'] = os.environ.get('DATABASE_URL', 'sqlite:///app.db')
app.config['JWT_ACCESS_TOKEN_EXPIRES'] = timedelta(hours=24)

# Initialize extensions
db = SQLAlchemy(app)
jwt = JWTManager(app)

# User model
class User(db.Model):
    id = db.Column(db.Integer, primary_key=True)
    email = db.Column(db.String(120), unique=True, nullable=False)
    password_hash = db.Column(db.String(128), nullable=False)
    
    def set_password(self, password):
        self.password_hash = generate_password_hash(password)
    
    def check_password(self, password):
        return check_password_hash(self.password_hash, password)

# Authentication routes
@app.route('/api/register', methods=['POST'])
def register():
    data = request.get_json()
    
    if User.query.filter_by(email=data['email']).first():
        return jsonify({'message': 'Email already exists'}), 400
    
    user = User(email=data['email'])
    user.set_password(data['password'])
    
    db.session.add(user)
    db.session.commit()
    
    return jsonify({'message': 'User created successfully'}), 201

@app.route('/api/login', methods=['POST'])
def login():
    data = request.get_json()
    user = User.query.filter_by(email=data['email']).first()
    
    if user and user.check_password(data['password']):
        access_token = create_access_token(identity=user.id)
        return jsonify({'access_token': access_token}), 200
    
    return jsonify({'message': 'Invalid credentials'}), 401

@app.route('/api/protected', methods=['GET'])
@jwt_required()
def protected():
    current_user_id = get_jwt_identity()
    user = User.query.get(current_user_id)
    return jsonify({'message': f'Hello {user.email}!'}), 200

if __name__ == '__main__':
    with app.app_context():
        db.create_all()
    app.run(debug=True)
```

This Flask API includes:
- **User registration and login**
- **JWT-based authentication** 
- **Password hashing** for security
- **Protected routes** that require authentication
- **SQLAlchemy** for database operations

To use this API:
1. **Register**: POST to `/api/register` with email/password
2. **Login**: POST to `/api/login` to get access token
3. **Access protected routes**: Include token in Authorization header

**Setup requirements:**
```bash
pip install flask flask-sqlalchemy flask-jwt-extended
```",
            Assistant, Some(1.43), Some(1707), Some(true))
  ]

  /** The initial list ends with an assistant message that carries statistics. */
  lemma SeedShowsStats()
    ensures ShowStats(Seed)
  {
  }

  /** The statistics panel's inputs. */
  datatype Stats = Stats(responseTime: real, tokens: int)

  /** What the component's logic decides about its rendering. */
  datatype ChatView = ChatView(
    bubbles: seq<Bubble>,
    placeholder: Option<Bubble>,
    stats: Option<Stats>,
    inputDisabled: bool)

  /** One mounted chat area with its child input box. */
  class Component {
    var messages: seq<Message>
    var isLoading: bool
    /** The options captured by reply timers not yet fired, oldest first. */
    var pending: seq<Option<SendOptions>>
    const input: ChatInput.Component

    /** The loading flag is set only while a reply timer is pending. */
    ghost predicate Valid()
      reads this
    {
      isLoading ==> pending != []
    }

    /**
     * Reached through the input box alone: at most one reply is pending,
     * exactly while loading, and it was requested without options.
     */
    ghost predicate DrivenByInput()
      reads this
    {
      Valid()
      && |pending| <= 1
      && (isLoading <==> pending != [])
      && forall i :: 0 <= i < |pending| ==> pending[i].None?
    }

    constructor()
      ensures messages == Seed && !isLoading && pending == []
      ensures fresh(input) && input.message == ""
      ensures DrivenByInput()
    {
      messages := Seed;
      isLoading := false;
      pending := [];
      input := new ChatInput.Component();
    }

    /**
     * The synchronous part of `handleSendMessage`: append the user's message,
     * set the loading flag and schedule the reply timer.
     */
    method HandleSendMessage(content: string, options: Option<SendOptions>)
      requires Valid()
      modifies this
      ensures Valid()
      ensures messages == old(messages) + [UserMessage(content)]
      ensures isLoading
      ensures pending == old(pending) + [options]
    {
      messages := messages + [UserMessage(content)];
      isLoading := true;
      pending := pending + [options];
    }

    /**
     * The oldest reply timer fires: append the assistant reply its options
     * choose and clear the loading flag. `random1` and `random2` are the two
     * `Math.random()` draws.
     */
    method CompleteReply(random1: real, random2: real) returns (reply: Message)
      requires Valid() && pending != []
      requires 0.0 <= random1 < 1.0 && 0.0 <= random2 < 1.0
      modifies this
      ensures Valid()
      ensures reply == Reply(old(pending)[0], random1, random2)
      ensures messages == old(messages) + [reply]
      ensures !isLoading && pending == old(pending)[1..]
      ensures old(DrivenByInput()) ==> DrivenByInput() && reply.content == PlainReply && reply.isPremium.None?
    {
      reply := Reply(pending[0], random1, random2);
      messages := messages + [reply];
      isLoading := false;
      pending := pending[1..];
    }

    /**
     * The input box's form is submitted: `handleSubmit` with `disabled`
     * bound to the loading flag, then, if it sent text, `onSendMessage`
     * with that text and no options.
     */
    method Submit() returns (sent: Option<string>)
      requires DrivenByInput()
      modifies this, input
      ensures DrivenByInput()
      ensures sent == ChatInput.SubmitOutcome(old(input.message), old(isLoading))
      ensures sent.Some? ==> messages == old(messages) + [UserMessage(sent.value)] && isLoading && input.message == ""
      ensures sent.None? ==> messages == old(messages) && isLoading == old(isLoading) && pending == old(pending)
                             && input.message == old(input.message)
    {
      sent := input.HandleSubmit(isLoading);
      if sent.Some? {
        HandleSendMessage(sent.value, None);
      }
    }

    /** A key pressed in the input box: Enter without Shift submits as above. */
    method KeyDown(key: string, shiftKey: bool) returns (sent: Option<string>)
      requires DrivenByInput()
      modifies this, input
      ensures DrivenByInput()
      ensures ChatInput.SubmitsOnKey(key, shiftKey) ==> sent == ChatInput.SubmitOutcome(old(input.message), old(isLoading))
      ensures !ChatInput.SubmitsOnKey(key, shiftKey) ==> sent.None?
      ensures sent.Some? ==> messages == old(messages) + [UserMessage(sent.value)] && isLoading && input.message == ""
      ensures sent.None? ==> messages == old(messages) && isLoading == old(isLoading) && pending == old(pending)
                             && input.message == old(input.message)
    {
      sent := input.HandleKeyDown(key, shiftKey, isLoading);
      if sent.Some? {
        HandleSendMessage(sent.value, None);
      }
    }

    /**
     * The rendering decisions: one bubble per message, the typing
     * placeholder exactly while loading, statistics exactly when
     * `ShowStats` holds, and the input disabled while loading.
     */
    function View(): (v: ChatView)
      reads this
      ensures |v.bubbles| == |messages|
      ensures forall i :: 0 <= i < |messages| ==> v.bubbles[i] == RenderBubble(messages[i].content, messages[i].role, false)
      ensures v.placeholder.Some? <==> isLoading
      ensures v.placeholder.Some? ==> v.placeholder.value.body.TypingDots? && !v.placeholder.value.alignedRight
      ensures v.stats.Some? <==> ShowStats(messages)
      ensures v.stats.Some? ==> v.stats.value.tokens == messages[|messages| - 1].tokens.value != 0
      ensures v.stats.Some? ==> v.stats.value.responseTime == messages[|messages| - 1].responseTime.value != 0.0
      ensures v.inputDisabled <==> isLoading
    {
      ChatView(
        seq(|messages|, i requires 0 <= i < |messages| reads this => RenderBubble(messages[i].content, messages[i].role, false)),
        if isLoading then Some(RenderBubble("Thinking...", Assistant, true)) else None,
        if ShowStats(messages)
        then Some(Stats(messages[|messages| - 1].responseTime.value, messages[|messages| - 1].tokens.value))
        else None,
        isLoading)
    }
  }
}
